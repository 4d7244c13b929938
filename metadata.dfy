/** Projection of the retriever's buildpack list onto the CNBBuild status. */
module Metadata {
  import opened Api

  /** Keeps each buildpack's id and version, in order, and drops its layers. */
  function ProjectMetadata(bps: seq<LifecycleBuildpack>): (r: seq<BuildpackMetadata>)
    ensures |r| == |bps|
    ensures forall i :: 0 <= i < |bps| ==> r[i] == BuildpackMetadata(bps[i].id, bps[i].version)
  {
    if |bps| == 0 then []
    else [BuildpackMetadata(bps[0].id, bps[0].version)] + ProjectMetadata(bps[1..])
  }

  /** Layers play no part: buildpack lists that agree on ids and versions
      project to the same metadata, and only those do. */
  lemma ProjectMetadataIgnoresLayers(a: seq<LifecycleBuildpack>, b: seq<LifecycleBuildpack>)
    ensures ProjectMetadata(a) == ProjectMetadata(b) <==>
            |a| == |b| && forall i :: 0 <= i < |a| ==> a[i].id == b[i].id && a[i].version == b[i].version
  {
  }
}
