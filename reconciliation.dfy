/** One reconcile pass of a CNBBuild key, as a function on the two stores and
    the record of metadata-retriever calls, with the properties the pass keeps. */
module Reconciliation {
  import opened Api
  import opened Conditions
  import opened Derive
  import opened Metadata

  /** The CNBBuild store, the Knative Build store and every argument the
      metadata retriever has been called with, oldest first. */
  datatype Cluster = Cluster(cnbBuilds: map<Key, CnbBuild>, knBuilds: map<Key, KnBuild>, calls: seq<CnbBuild>)

  /** The metadata retriever's answer for a CNBBuild. */
  type Oracle = CnbBuild -> Retrieval

  /** Every stored object sits under its own key. */
  ghost predicate WellFormed(c: Cluster)
  {
    && (forall k :: k in c.cnbBuilds ==> c.cnbBuilds[k].key == k)
    && (forall k :: k in c.knBuilds ==> c.knBuilds[k].key == k)
  }

  /** The Build store after the create-if-absent step for `b`. */
  function EnsureDerived(knBuilds: map<Key, KnBuild>, key: Key, b: CnbBuild): map<Key, KnBuild>
  {
    if key in knBuilds then knBuilds else knBuilds[key := DeriveBuild(b)]
  }

  /** `b` with the Build's conditions copied over its own. */
  function SyncConditions(b: CnbBuild, kn: KnBuild): CnbBuild
  {
    b.(status := b.status.(conditions := kn.conditions))
  }

  /** The retriever is consulted only for a succeeded build with no buildpack metadata yet. */
  predicate NeedsMetadata(b: CnbBuild)
  {
    SucceededIsTrue(b.status.conditions) && |b.status.buildMetadata| == 0
  }

  function RecordImage(b: CnbBuild, img: BuiltImage): CnbBuild
  {
    b.(status := b.status.(sha := img.sha, buildMetadata := ProjectMetadata(img.buildpacks)))
  }

  function MarkObserved(b: CnbBuild): CnbBuild
  {
    b.(status := b.status.(observedGeneration := b.generation))
  }

  /** One pass of `Reconciler.Reconcile(key)`: the cluster afterwards and the
      returned outcome. A failing retriever aborts before the single status write. */
  function Reconciled(c: Cluster, key: Key, oracle: Oracle): (r: (Cluster, Outcome))
  {
    if key !in c.cnbBuilds then (c, Ok)
    else
      var kn := EnsureDerived(c.knBuilds, key, c.cnbBuilds[key]);
      var synced := SyncConditions(c.cnbBuilds[key], kn[key]);
      if NeedsMetadata(synced) then
        var calls := c.calls + [synced];
        match oracle(synced)
        case RetrievalFailed(reason) => (Cluster(c.cnbBuilds, kn, calls), Err(reason))
        case Retrieved(img) =>
          (Cluster(c.cnbBuilds[key := MarkObserved(RecordImage(synced, img))], kn, calls), Ok)
      else
        (Cluster(c.cnbBuilds[key := MarkObserved(synced)], kn, c.calls), Ok)
  }

  /** `n` passes of the same key with nothing else happening in between. */
  function Repeat(c: Cluster, key: Key, oracle: Oracle, n: nat): Cluster
    decreases n
  {
    if n == 0 then c else Repeat(Reconciled(c, key, oracle).0, key, oracle, n - 1)
  }

  /** A retriever that always answers, with a non-empty buildpack list. */
  ghost predicate AlwaysFindsBuildpacks(oracle: Oracle)
  {
    forall b :: oracle(b).Retrieved? && |oracle(b).image.buildpacks| > 0
  }

  // ---------------------------------------------------------------------------
  // Properties of one pass

  /** A key whose CNBBuild is gone reconciles to success and touches nothing. */
  lemma DeletedKeyIsNoop(c: Cluster, key: Key, oracle: Oracle)
    requires key !in c.cnbBuilds
    ensures Reconciled(c, key, oracle) == (c, Ok)
  {
  }

  /** The Build is created from the CNBBuild exactly when none exists; an
      existing Build is never replaced, whatever the CNBBuild's spec is now. */
  lemma DerivedBuildCreatedOnce(c: Cluster, key: Key, oracle: Oracle)
    requires key in c.cnbBuilds
    ensures var after := Reconciled(c, key, oracle).0;
            && key in after.knBuilds
            && (key in c.knBuilds ==> after.knBuilds == c.knBuilds)
            && (key !in c.knBuilds ==> after.knBuilds == c.knBuilds[key := DeriveBuild(c.cnbBuilds[key])])
  {
  }

  /** After a successful pass the CNBBuild's conditions are exactly the Build's. */
  lemma ConditionsMirrored(c: Cluster, key: Key, oracle: Oracle)
    requires key in c.cnbBuilds
    requires Reconciled(c, key, oracle).1 == Ok
    ensures var after := Reconciled(c, key, oracle).0;
            && key in after.cnbBuilds && key in after.knBuilds
            && after.cnbBuilds[key].status.conditions == after.knBuilds[key].conditions
  {
  }

  /** After a successful pass the observed generation is the generation, and
      the pass changed neither the identity, the generation nor the spec. */
  lemma ObservedGenerationTracked(c: Cluster, key: Key, oracle: Oracle)
    requires key in c.cnbBuilds
    requires Reconciled(c, key, oracle).1 == Ok
    ensures var after := Reconciled(c, key, oracle).0;
            && key in after.cnbBuilds
            && after.cnbBuilds[key].status.observedGeneration == c.cnbBuilds[key].generation
            && after.cnbBuilds[key].generation == c.cnbBuilds[key].generation
            && after.cnbBuilds[key].spec == c.cnbBuilds[key].spec
            && after.cnbBuilds[key].key == c.cnbBuilds[key].key
  {
  }

  /** The retriever is called once, with the CNBBuild carrying the Build's
      conditions, exactly when Succeeded is True and the metadata list is
      empty; otherwise it is not called at all. */
  lemma RetrieverCalledOnlyWhenNeeded(c: Cluster, key: Key, oracle: Oracle)
    requires key in c.cnbBuilds
    ensures var kn := EnsureDerived(c.knBuilds, key, c.cnbBuilds[key]);
            var synced := SyncConditions(c.cnbBuilds[key], kn[key]);
            var after := Reconciled(c, key, oracle).0;
            && (NeedsMetadata(synced) <==>
                  SucceededIsTrue(kn[key].conditions) && |c.cnbBuilds[key].status.buildMetadata| == 0)
            && (NeedsMetadata(synced) ==> after.calls == c.calls + [synced])
            && (!NeedsMetadata(synced) ==> after.calls == c.calls)
  {
  }

  /** When the retriever answers, the digest and the projected buildpack list
      are stored. */
  lemma MetadataRecorded(c: Cluster, key: Key, oracle: Oracle)
    requires key in c.cnbBuilds
    requires NeedsMetadata(SyncConditions(c.cnbBuilds[key], EnsureDerived(c.knBuilds, key, c.cnbBuilds[key])[key]))
    ensures var kn := EnsureDerived(c.knBuilds, key, c.cnbBuilds[key]);
            var answer := oracle(SyncConditions(c.cnbBuilds[key], kn[key]));
            var r := Reconciled(c, key, oracle);
            && (answer.Retrieved? <==> r.1 == Ok)
            && (answer.Retrieved? ==>
                  && r.0.cnbBuilds[key].status.sha == answer.image.sha
                  && r.0.cnbBuilds[key].status.buildMetadata == ProjectMetadata(answer.image.buildpacks))
  {
  }

  /** Digest and metadata never change once the metadata list is non-empty,
      and the retriever is not called again; the guard is the list, not the digest. */
  lemma MetadataNeverOverwritten(c: Cluster, key: Key, oracle: Oracle)
    requires key in c.cnbBuilds
    requires |c.cnbBuilds[key].status.buildMetadata| > 0
    ensures var after := Reconciled(c, key, oracle);
            && after.1 == Ok
            && after.0.calls == c.calls
            && after.0.cnbBuilds[key].status.sha == c.cnbBuilds[key].status.sha
            && after.0.cnbBuilds[key].status.buildMetadata == c.cnbBuilds[key].status.buildMetadata
  {
  }

  /** A Build that has not succeeded brings no retriever call and leaves
      digest and metadata as they were. */
  lemma UnsucceededBuildGetsNoMetadata(c: Cluster, key: Key, oracle: Oracle)
    requires key in c.cnbBuilds
    requires !SucceededIsTrue(EnsureDerived(c.knBuilds, key, c.cnbBuilds[key])[key].conditions)
    ensures var after := Reconciled(c, key, oracle);
            && after.1 == Ok
            && after.0.calls == c.calls
            && after.0.cnbBuilds[key].status.sha == c.cnbBuilds[key].status.sha
            && after.0.cnbBuilds[key].status.buildMetadata == c.cnbBuilds[key].status.buildMetadata
  {
  }

  /** A failing retriever fails the pass and leaves digest, metadata and
      observed generation untouched, so the next pass retries. */
  lemma RetrievalFailureLeavesStatus(c: Cluster, key: Key, oracle: Oracle)
    requires key in c.cnbBuilds
    requires Reconciled(c, key, oracle).1.Err?
    ensures var after := Reconciled(c, key, oracle).0;
            && key in after.cnbBuilds
            && after.cnbBuilds[key].status.sha == c.cnbBuilds[key].status.sha
            && after.cnbBuilds[key].status.buildMetadata == c.cnbBuilds[key].status.buildMetadata
            && after.cnbBuilds[key].status.observedGeneration == c.cnbBuilds[key].status.observedGeneration
            && |after.calls| == |c.calls| + 1
  {
  }

  /** A pass touches only its own key in both stores and only appends to the call record. */
  lemma OtherKeysUntouched(c: Cluster, key: Key, oracle: Oracle, other: Key)
    requires other != key
    ensures var after := Reconciled(c, key, oracle).0;
            && (other in after.cnbBuilds <==> other in c.cnbBuilds)
            && (other in c.cnbBuilds ==> after.cnbBuilds[other] == c.cnbBuilds[other])
            && (other in after.knBuilds <==> other in c.knBuilds)
            && (other in c.knBuilds ==> after.knBuilds[other] == c.knBuilds[other])
            && after.cnbBuilds.Keys == c.cnbBuilds.Keys
            && c.calls <= after.calls
  {
  }

  /** Every object still sits under its own key after a pass. */
  lemma WellFormedPreserved(c: Cluster, key: Key, oracle: Oracle)
    requires WellFormed(c)
    ensures WellFormed(Reconciled(c, key, oracle).0)
  {
  }

  // ---------------------------------------------------------------------------
  // Properties of repeated passes

  /** Once a pass has succeeded and left nothing to fetch, the next pass
      changes nothing and calls nobody. */
  lemma SettledPassIsIdempotent(c: Cluster, key: Key, oracle: Oracle)
    requires key in c.cnbBuilds
    requires Reconciled(c, key, oracle).1 == Ok
    requires !NeedsMetadata(Reconciled(c, key, oracle).0.cnbBuilds[key])
    ensures Reconciled(Reconciled(c, key, oracle).0, key, oracle) == (Reconciled(c, key, oracle).0, Ok)
  {
    var after := Reconciled(c, key, oracle).0;
    var b := after.cnbBuilds[key];
    assert key in after.knBuilds;
    assert SyncConditions(b, after.knBuilds[key]) == b;
    assert MarkObserved(b) == b;
    assert after.cnbBuilds[key := b] == after.cnbBuilds;
  }

  /** With a retriever that answers with some buildpacks, a successful pass
      always leaves the key settled. */
  lemma SuccessfulPassSettles(c: Cluster, key: Key, oracle: Oracle)
    requires key in c.cnbBuilds
    requires AlwaysFindsBuildpacks(oracle)
    ensures Reconciled(c, key, oracle).1 == Ok
    ensures !NeedsMetadata(Reconciled(c, key, oracle).0.cnbBuilds[key])
  {
  }

  /** However many times a settled key is reconciled, nothing changes. */
  lemma {:induction false} SettledStaysSettled(c: Cluster, key: Key, oracle: Oracle, n: nat)
    requires key in c.cnbBuilds
    requires Reconciled(c, key, oracle) == (c, Ok)
    ensures Repeat(c, key, oracle, n) == c
  {
    if n > 0 {
      SettledStaysSettled(c, key, oracle, n - 1);
    }
  }

  /** Metadata is fetched at most once per key: with a retriever that answers
      with some buildpacks, any number of passes call it at most once, and
      not at all when Succeeded is not True. */
  lemma {:induction false} MetadataFetchedAtMostOnce(c: Cluster, key: Key, oracle: Oracle, n: nat)
    requires key in c.cnbBuilds
    requires AlwaysFindsBuildpacks(oracle)
    ensures c.calls <= Repeat(c, key, oracle, n).calls
    ensures |Repeat(c, key, oracle, n).calls| <= |c.calls| + 1
    ensures !SucceededIsTrue(EnsureDerived(c.knBuilds, key, c.cnbBuilds[key])[key].conditions)
            ==> Repeat(c, key, oracle, n).calls == c.calls
  {
    if n > 0 {
      var first := Reconciled(c, key, oracle).0;
      RetrieverCalledOnlyWhenNeeded(c, key, oracle);
      SuccessfulPassSettles(c, key, oracle);
      SettledPassIsIdempotent(c, key, oracle);
      SettledStaysSettled(first, key, oracle, n - 1);
    }
  }

  /** A build that has not succeeded never gets metadata, whatever the
      retriever would answer: any number of passes call nobody and leave
      digest and metadata as they were. */
  lemma {:induction false} UnsucceededBuildNeverGetsMetadata(c: Cluster, key: Key, oracle: Oracle, n: nat)
    requires key in c.cnbBuilds
    requires !SucceededIsTrue(EnsureDerived(c.knBuilds, key, c.cnbBuilds[key])[key].conditions)
    ensures var after := Repeat(c, key, oracle, n);
            && key in after.cnbBuilds
            && after.calls == c.calls
            && after.cnbBuilds[key].status.sha == c.cnbBuilds[key].status.sha
            && after.cnbBuilds[key].status.buildMetadata == c.cnbBuilds[key].status.buildMetadata
    decreases n
  {
    if n > 0 {
      var first := Reconciled(c, key, oracle).0;
      UnsucceededBuildGetsNoMetadata(c, key, oracle);
      DerivedBuildCreatedOnce(c, key, oracle);
      assert EnsureDerived(first.knBuilds, key, first.cnbBuilds[key])[key]
             == EnsureDerived(c.knBuilds, key, c.cnbBuilds[key])[key];
      UnsucceededBuildNeverGetsMetadata(first, key, oracle, n - 1);
    }
  }

  /** Why `MetadataFetchedAtMostOnce` needs its retriever to find buildpacks:
      an answer with an empty buildpack list leaves the list empty, so the
      next pass asks again. */
  lemma EmptyAnswerIsFetchedAgain(c: Cluster, key: Key, digest: string)
    requires key in c.cnbBuilds
    requires NeedsMetadata(SyncConditions(c.cnbBuilds[key], EnsureDerived(c.knBuilds, key, c.cnbBuilds[key])[key]))
    ensures |Repeat(c, key, b => Retrieved(BuiltImage(digest, [])), 2).calls| == |c.calls| + 2
  {
  }
}
