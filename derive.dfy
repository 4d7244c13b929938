/** Construction of the Knative Build from a CNBBuild: a pure function of the
    CNBBuild's identity and spec. */
module Derive {
  import opened Api

  const TemplateName: string := "buildpacks-cnb"
  const ImageArg: string := "IMAGE"
  const BuilderImageArg: string := "BUILDER_IMAGE"
  const CnbBuildKind: string := "CNBBuild"

  /** The controller owner reference the Build carries back to its CNBBuild. */
  function ControllerRef(b: CnbBuild): (r: OwnerReference)
    ensures r.controller && r.blockOwnerDeletion && r.kind == CnbBuildKind && r.name == b.key.name
  {
    OwnerReference(CnbBuildKind, b.key.name, true, true)
  }

  /** The value of the first template argument called `name`, if any. */
  function ArgValue(args: seq<ArgumentSpec>, name: string): (r: Option<string>)
    ensures r.None? <==> forall i :: 0 <= i < |args| ==> args[i].name != name
    ensures r.Some? ==> exists i :: 0 <= i < |args| && args[i] == ArgumentSpec(name, r.value)
  {
    if |args| == 0 then None
    else if args[0].name == name then
      assert args[0] == ArgumentSpec(name, args[0].value);
      Some(args[0].value)
    else
      var r := ArgValue(args[1..], name);
      if r.Some? then
        var i :| 0 <= i < |args[1..]| && args[1..][i] == ArgumentSpec(name, r.value);
        assert args[i + 1] == ArgumentSpec(name, r.value);
        r
      else
        assert forall i :: 0 <= i < |args| ==> args[i].name != name by {
          forall i | 0 <= i < |args| ensures args[i].name != name {
            if i > 0 { assert args[i] == args[1..][i - 1]; }
          }
        }
        r
  }

  /** The Build created for a CNBBuild that has none yet: same name and
      namespace, owned by the CNBBuild, no conditions reported, and a spec
      from which the CNBBuild's spec can be read back. */
  function DeriveBuild(b: CnbBuild): (k: KnBuild)
    ensures k.key == b.key
    ensures k.ownerReferences == [ControllerRef(b)]
    ensures k.conditions == []
    ensures k.spec.template.name == TemplateName
    ensures SpecOf(k) == Some(b.spec)
  {
    var k := KnBuild(
      b.key,
      [ControllerRef(b)],
      KnBuildSpec(
        b.spec.serviceAccount,
        GitSourceSpec(b.spec.gitUrl, b.spec.gitRevision),
        TemplateSpec(TemplateName, [ArgumentSpec(ImageArg, b.spec.image), ArgumentSpec(BuilderImageArg, b.spec.builder)])),
      []);
    assert ArgValue(k.spec.template.arguments, ImageArg) == Some(b.spec.image);
    assert ArgValue(k.spec.template.arguments, BuilderImageArg) == Some(b.spec.builder) by {
      assert k.spec.template.arguments[1..] == [ArgumentSpec(BuilderImageArg, b.spec.builder)];
    }
    k
  }

  /** Reads a CNBBuild spec back out of a Build spec: the reference
      definition DeriveBuild is checked against. */
  function SpecOf(k: KnBuild): Option<CnbBuildSpec>
  {
    var image := ArgValue(k.spec.template.arguments, ImageArg);
    var builder := ArgValue(k.spec.template.arguments, BuilderImageArg);
    if image.Some? && builder.Some? then
      Some(CnbBuildSpec(image.value, k.spec.serviceAccountName, k.spec.git.url, k.spec.git.revision, builder.value))
    else None
  }

  /** The argument list is exactly IMAGE then BUILDER_IMAGE, in that order,
      and the service account and git source come from the spec. */
  lemma DerivedBuildSpecLayout(b: CnbBuild)
    ensures DeriveBuild(b).spec.template.arguments
            == [ArgumentSpec(ImageArg, b.spec.image), ArgumentSpec(BuilderImageArg, b.spec.builder)]
    ensures DeriveBuild(b).spec.serviceAccountName == b.spec.serviceAccount
    ensures DeriveBuild(b).spec.git == GitSourceSpec(b.spec.gitUrl, b.spec.gitRevision)
  {
  }

  /** Two CNBBuilds get the same Build exactly when they have the same
      identity and the same spec: nothing else goes into the Build. */
  lemma DeriveBuildInjective(a: CnbBuild, b: CnbBuild)
    ensures DeriveBuild(a) == DeriveBuild(b) <==> a.key == b.key && a.spec == b.spec
  {
  }
}
