/** The reconciler as a stateful component: two keyed stores, the metadata
    retriever with its record of calls, and `Reconcile`, proved to perform the
    pass that `Reconciliation.Reconciled` describes. */
module Controller {
  import opened Api
  import opened Conditions
  import opened Derive
  import opened Metadata
  import opened Reconciliation

  /** The CNBBuild API: objects by key. */
  class CnbBuildStore {
    var objects: map<Key, CnbBuild>

    constructor ()
      ensures objects == map[]
    {
      objects := map[];
    }

    method Get(key: Key) returns (r: Option<CnbBuild>)
      ensures r.None? <==> key !in objects
      ensures r.Some? ==> r.value == objects[key]
    {
      r := if key in objects then Some(objects[key]) else None;
    }

    /** Fails with AlreadyExists when the key is taken. */
    method Create(b: CnbBuild) returns (err: Outcome)
      modifies this
      ensures err.Ok? <==> b.key !in old(objects)
      ensures objects == if err.Ok? then old(objects)[b.key := b] else old(objects)
    {
      if b.key in objects {
        err := Err("already exists");
      } else {
        objects := objects[b.key := b];
        err := Ok;
      }
    }

    /** Replaces the whole object; fails with NotFound when absent. */
    method Update(b: CnbBuild) returns (err: Outcome)
      modifies this
      ensures err.Ok? <==> b.key in old(objects)
      ensures objects == if err.Ok? then old(objects)[b.key := b] else old(objects)
    {
      if b.key in objects {
        objects := objects[b.key := b];
        err := Ok;
      } else {
        err := Err("not found");
      }
    }

    /** Replaces only the status of the stored object; fails with NotFound when absent. */
    method UpdateStatus(b: CnbBuild) returns (err: Outcome)
      modifies this
      ensures err.Ok? <==> b.key in old(objects)
      ensures objects == if err.Ok? then old(objects)[b.key := old(objects)[b.key].(status := b.status)]
                         else old(objects)
    {
      if b.key in objects {
        objects := objects[b.key := objects[b.key].(status := b.status)];
        err := Ok;
      } else {
        err := Err("not found");
      }
    }

    /** Fails with NotFound when absent. */
    method Delete(key: Key) returns (err: Outcome)
      modifies this
      ensures err.Ok? <==> key in old(objects)
      ensures objects == old(objects) - {key}
    {
      err := if key in objects then Ok else Err("not found");
      objects := objects - {key};
    }
  }

  /** The Knative Build API: objects by key. */
  class KnBuildStore {
    var objects: map<Key, KnBuild>

    constructor ()
      ensures objects == map[]
    {
      objects := map[];
    }

    method Get(key: Key) returns (r: Option<KnBuild>)
      ensures r.None? <==> key !in objects
      ensures r.Some? ==> r.value == objects[key]
    {
      r := if key in objects then Some(objects[key]) else None;
    }

    /** Fails with AlreadyExists when the key is taken. */
    method Create(k: KnBuild) returns (err: Outcome)
      modifies this
      ensures err.Ok? <==> k.key !in old(objects)
      ensures objects == if err.Ok? then old(objects)[k.key := k] else old(objects)
    {
      if k.key in objects {
        err := Err("already exists");
      } else {
        objects := objects[k.key := k];
        err := Ok;
      }
    }

    /** The build executor reporting progress: replaces the Build's conditions. */
    method UpdateStatus(key: Key, conditions: seq<Condition>) returns (err: Outcome)
      modifies this
      ensures err.Ok? <==> key in old(objects)
      ensures objects == if err.Ok? then old(objects)[key := old(objects)[key].(conditions := conditions)]
                         else old(objects)
    {
      if key in objects {
        objects := objects[key := objects[key].(conditions := conditions)];
        err := Ok;
      } else {
        err := Err("not found");
      }
    }
  }

  /** The metadata retriever: answers from `oracle` and records each argument. */
  class MetadataRetriever {
    const oracle: Oracle
    var calls: seq<CnbBuild>

    constructor (oracle: Oracle)
      ensures this.oracle == oracle && calls == []
    {
      this.oracle := oracle;
      calls := [];
    }

    method GetBuiltImage(b: CnbBuild) returns (r: Retrieval)
      modifies this
      ensures r == oracle(b)
      ensures calls == old(calls) + [b]
    {
      r := oracle(b);
      calls := calls + [b];
    }
  }

  class Reconciler {
    const cnbStore: CnbBuildStore
    const knStore: KnBuildStore
    const retriever: MetadataRetriever

    constructor (cnbStore: CnbBuildStore, knStore: KnBuildStore, retriever: MetadataRetriever)
      requires WellFormed(Cluster(cnbStore.objects, knStore.objects, retriever.calls))
      ensures Valid()
      ensures this.cnbStore == cnbStore && this.knStore == knStore && this.retriever == retriever
    {
      this.cnbStore := cnbStore;
      this.knStore := knStore;
      this.retriever := retriever;
    }

    /** The abstract state the reconciler works on. */
    ghost function State(): Cluster
      reads this, cnbStore, knStore, retriever
    {
      Cluster(cnbStore.objects, knStore.objects, retriever.calls)
    }

    ghost predicate Valid()
      reads this, cnbStore, knStore, retriever
    {
      WellFormed(State())
    }

    /** One reconcile pass for `key`. */
    method Reconcile(key: Key) returns (outcome: Outcome)
      requires Valid()
      modifies cnbStore, knStore, retriever
      ensures Valid()
      ensures (State(), outcome) == Reconciled(old(State()), key, retriever.oracle)
    {
      ghost var before := State();
      WellFormedPreserved(before, key, retriever.oracle);
      var found := cnbStore.Get(key);
      if found.None? {
        return Ok;
      }
      var build := found.value;
      var existing := knStore.Get(key);
      var knBuild: KnBuild;
      if existing.None? {
        knBuild := DeriveBuild(build);
        var created := knStore.Create(knBuild);
      } else {
        knBuild := existing.value;
      }
      assert knStore.objects == EnsureDerived(before.knBuilds, key, before.cnbBuilds[key]);
      build := SyncConditions(build, knBuild);
      if SucceededIsTrue(build.status.conditions) && |build.status.buildMetadata| == 0 {
        var answer := retriever.GetBuiltImage(build);
        if answer.RetrievalFailed? {
          return Err(answer.reason);
        }
        build := RecordImage(build, answer.image);
      }
      build := MarkObserved(build);
      var written := cnbStore.UpdateStatus(build);
      assert cnbStore.objects == before.cnbBuilds[key := build];
      outcome := Ok;
    }
  }
}
