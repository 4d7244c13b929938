/** Client code that drives the reconciler through the situations the
    reconciler's test suite sets up, using only the components' contracts. */
module Scenarios {
  import opened Api
  import opened Conditions
  import opened Derive
  import opened Metadata
  import opened Reconciliation
  import opened Controller

  const BuildKey: Key := Key("some-namespace", "cnb-build-name")

  const InitialSpec: CnbBuildSpec :=
    CnbBuildSpec("someimage/name", "someserviceaccount", "giturl.com/git.git", "gitrev1234", "somebuilder/123")

  const Fresh: CnbBuild := CnbBuild(BuildKey, 0, InitialSpec, CnbBuildStatus([], 0, "", []))

  const SucceededTrue: Condition := Condition(ConditionSucceeded, True, "", "")

  /** A retriever stubbed to always return one buildpack and an empty digest. */
  function StubRetriever(b: CnbBuild): Retrieval
  {
    Retrieved(BuiltImage("", [LifecycleBuildpack("1", "foo", [])]))
  }

  /** Fresh stores holding the CNBBuild, reconciled once. */
  method ReconciledOnce() returns (reconciler: Reconciler)
    ensures fresh(reconciler) && fresh(reconciler.cnbStore) && fresh(reconciler.knStore) && fresh(reconciler.retriever)
    ensures reconciler.retriever.oracle == StubRetriever
    ensures reconciler.Valid()
    ensures reconciler.State() == Cluster(map[BuildKey := Fresh], map[BuildKey := DeriveBuild(Fresh)], [])
  {
    var cnbStore := new CnbBuildStore();
    var knStore := new KnBuildStore();
    var retriever := new MetadataRetriever(StubRetriever);
    var err := cnbStore.Create(Fresh);
    reconciler := new Reconciler(cnbStore, knStore, retriever);
    var outcome := reconciler.Reconcile(BuildKey);
    assert MarkObserved(SyncConditions(Fresh, DeriveBuild(Fresh))) == Fresh;
  }

  /** The first pass creates the Build from the CNBBuild's spec. */
  method CreatesKnativeBuild()
  {
    var reconciler := ReconciledOnce();
    DerivedBuildSpecLayout(Fresh);
    assert reconciler.knStore.objects[BuildKey] == KnBuild(
      BuildKey,
      [OwnerReference("CNBBuild", "cnb-build-name", true, true)],
      KnBuildSpec("someserviceaccount", GitSourceSpec("giturl.com/git.git", "gitrev1234"),
                  TemplateSpec("buildpacks-cnb", [ArgumentSpec("IMAGE", "someimage/name"),
                                                  ArgumentSpec("BUILDER_IMAGE", "somebuilder/123")])),
      []);
  }

  /** A spec edit does not reach the Build; the new generation is observed. */
  method IgnoresSpecEdits()
  {
    var reconciler := ReconciledOnce();
    var edited := CnbBuild(BuildKey, 1234,
      CnbBuildSpec("updatedsomeimage/name", "updatedsomeserviceaccount", "updatedgiturl.com/git.git", "updated1234", ""),
      CnbBuildStatus([], 0, "", []));
    var err := reconciler.cnbStore.Update(edited);
    assert reconciler.Valid();
    ghost var before := reconciler.State();
    DerivedBuildCreatedOnce(before, BuildKey, StubRetriever);
    ObservedGenerationTracked(before, BuildKey, StubRetriever);
    var outcome := reconciler.Reconcile(BuildKey);
    assert outcome == Ok;
    assert reconciler.knStore.objects[BuildKey] == DeriveBuild(Fresh);
    assert reconciler.knStore.objects[BuildKey].spec.serviceAccountName == "someserviceaccount";
    assert reconciler.cnbStore.objects[BuildKey].status.observedGeneration == 1234;
  }

  /** Success is mirrored and metadata fetched once, even though the digest is empty. */
  method MetadataFetchedOnce()
  {
    var reconciler := ReconciledOnce();
    var err := reconciler.knStore.UpdateStatus(BuildKey, [SucceededTrue]);
    assert reconciler.Valid();
    ghost var before := reconciler.State();
    assert SucceededIsTrue([SucceededTrue]);
    RetrieverCalledOnlyWhenNeeded(before, BuildKey, StubRetriever);
    MetadataRecorded(before, BuildKey, StubRetriever);
    ConditionsMirrored(before, BuildKey, StubRetriever);
    var outcome := reconciler.Reconcile(BuildKey);
    assert outcome == Ok;
    assert reconciler.cnbStore.objects[BuildKey].status.conditions == [SucceededTrue];
    assert reconciler.cnbStore.objects[BuildKey].status.buildMetadata == [BuildpackMetadata("1", "foo")];
    assert |reconciler.retriever.calls| == 1;

    before := reconciler.State();
    MetadataNeverOverwritten(before, BuildKey, StubRetriever);
    outcome := reconciler.Reconcile(BuildKey);
    assert reconciler.cnbStore.objects[BuildKey].status.buildMetadata == [BuildpackMetadata("1", "foo")];
    assert |reconciler.retriever.calls| == 1;
  }

  /** A failed build never reaches the retriever. */
  method FailedBuild()
  {
    var reconciler := ReconciledOnce();
    var err := reconciler.knStore.UpdateStatus(BuildKey, [Condition(ConditionSucceeded, False, "", "")]);
    assert reconciler.Valid();
    ghost var before := reconciler.State();
    assert !SucceededIsTrue(before.knBuilds[BuildKey].conditions);
    UnsucceededBuildGetsNoMetadata(before, BuildKey, StubRetriever);
    var outcome := reconciler.Reconcile(BuildKey);
    assert outcome == Ok;
    assert reconciler.cnbStore.objects[BuildKey].status.buildMetadata == [];
    assert reconciler.retriever.calls == [];
  }

  /** Reconciling a deleted CNBBuild's key succeeds. */
  method DeletedBuild()
  {
    var reconciler := ReconciledOnce();
    var err := reconciler.cnbStore.Delete(BuildKey);
    assert reconciler.Valid();
    var outcome := reconciler.Reconcile(BuildKey);
    assert outcome == Ok;
  }
}
