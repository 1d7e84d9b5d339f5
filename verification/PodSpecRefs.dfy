/** podSpecRefs of kube_namespace_graph.go: the ConfigMaps, Secrets and claims a pod depends on. */
module PodSpecRefs {
  import opened KubeObjects
  import opened Wrappers

  datatype SpecRef = SpecRef(kind: string, name: string)

  // The references of a pod spec in the order they are visited, repetitions and empty names included

  ghost predicate OnlyKnownKinds(refs: seq<SpecRef>) {
    forall r :: r in refs ==> r.kind == "ConfigMap" || r.kind == "Secret" || r.kind == "PersistentVolumeClaim"
  }

  function OptionalRef(kind: string, name: Option<string>): seq<SpecRef> {
    if name.None? then [] else [SpecRef(kind, name.value)]
  }

  function ConfigRefs(refs: seq<ConfigRef>): (r: seq<SpecRef>)
    ensures OnlyKnownKinds(r)
  {
    if refs == [] then []
    else OptionalRef("ConfigMap", refs[0].configMap) + OptionalRef("Secret", refs[0].secret) + ConfigRefs(refs[1..])
  }

  function RefsOfVolume(v: Volume): (refs: seq<SpecRef>)
    ensures OnlyKnownKinds(refs)
  {
    match v
    case ConfigMapVolume(name) => [SpecRef("ConfigMap", name)]
    case SecretVolume(name) => [SpecRef("Secret", name)]
    case ClaimVolume(name) => [SpecRef("PersistentVolumeClaim", name)]
    case ProjectedVolume(sources) => ConfigRefs(sources)
    case OtherVolume => []
  }

  function VolumeRefs(volumes: seq<Volume>): (refs: seq<SpecRef>)
    ensures OnlyKnownKinds(refs)
  {
    if volumes == [] then [] else RefsOfVolume(volumes[0]) + VolumeRefs(volumes[1..])
  }

  function SecretRefs(names: seq<string>): (refs: seq<SpecRef>)
    ensures OnlyKnownKinds(refs)
  {
    if names == [] then [] else [SpecRef("Secret", names[0])] + SecretRefs(names[1..])
  }

  function ContainerRefs(containers: seq<Container>): (refs: seq<SpecRef>)
    ensures OnlyKnownKinds(refs)
  {
    if containers == [] then []
    else ConfigRefs(containers[0].envFrom) + ConfigRefs(containers[0].env) + ContainerRefs(containers[1..])
  }

  function AllRefs(spec: PodSpec): seq<SpecRef> {
    VolumeRefs(spec.volumes) + SecretRefs(spec.imagePullSecrets) + ContainerRefs(spec.initContainers + spec.containers)
  }

  // What a pod spec names, field by field

  ghost predicate EntryNames(entry: ConfigRef, r: SpecRef) {
    || (r.kind == "ConfigMap" && entry.configMap == Some(r.name))
    || (r.kind == "Secret" && entry.secret == Some(r.name))
  }

  ghost predicate EntriesName(entries: seq<ConfigRef>, r: SpecRef) {
    exists i :: 0 <= i < |entries| && EntryNames(entries[i], r)
  }

  ghost predicate VolumeNames(v: Volume, r: SpecRef) {
    || (v.ConfigMapVolume? && r == SpecRef("ConfigMap", v.name))
    || (v.SecretVolume? && r == SpecRef("Secret", v.name))
    || (v.ClaimVolume? && r == SpecRef("PersistentVolumeClaim", v.name))
    || (v.ProjectedVolume? && EntriesName(v.sources, r))
  }

  ghost predicate ContainerNames(c: Container, r: SpecRef) {
    EntriesName(c.envFrom, r) || EntriesName(c.env, r)
  }

  /** A volume of that kind and name, a source of a projected volume, an image pull secret, or what a
      container, initial or not, reads its environment from. */
  ghost predicate Refers(spec: PodSpec, r: SpecRef) {
    || (exists i :: 0 <= i < |spec.volumes| && VolumeNames(spec.volumes[i], r))
    || (exists i :: 0 <= i < |spec.imagePullSecrets| && r == SpecRef("Secret", spec.imagePullSecrets[i]))
    || (exists i :: 0 <= i < |spec.initContainers| && ContainerNames(spec.initContainers[i], r))
    || (exists i :: 0 <= i < |spec.containers| && ContainerNames(spec.containers[i], r))
  }

  lemma {:induction false} ConfigRefsMeaning(refs: seq<ConfigRef>, r: SpecRef)
    ensures r in ConfigRefs(refs) <==> EntriesName(refs, r)
  {
    if refs != [] {
      ConfigRefsMeaning(refs[1..], r);
      OptionalRefMeaning(refs[0], r);
      hide EntryNames, OptionalRef;
      assert EntriesName(refs, r) <==> EntryNames(refs[0], r) || EntriesName(refs[1..], r) by {
        if i :| 0 <= i < |refs| && EntryNames(refs[i], r) && i > 0 {
          assert refs[1..][i - 1] == refs[i];
        }
        if i :| 0 <= i < |refs[1..]| && EntryNames(refs[1..][i], r) {
          assert refs[i + 1] == refs[1..][i];
        }
      }
    }
  }

  lemma OptionalRefMeaning(entry: ConfigRef, r: SpecRef)
    ensures r in OptionalRef("ConfigMap", entry.configMap) + OptionalRef("Secret", entry.secret)
            <==> EntryNames(entry, r)
  {
  }

  lemma VolumeMeaning(v: Volume, r: SpecRef)
    ensures r in RefsOfVolume(v) <==> VolumeNames(v, r)
  {
    hide ConfigRefs, EntriesName;
    if v.ProjectedVolume? {
      ConfigRefsMeaning(v.sources, r);
    }
  }

  lemma {:induction false} VolumeRefsMeaning(volumes: seq<Volume>, r: SpecRef)
    ensures r in VolumeRefs(volumes) <==> exists i :: 0 <= i < |volumes| && VolumeNames(volumes[i], r)
  {
    hide RefsOfVolume, VolumeNames;
    if volumes != [] {
      VolumeRefsMeaning(volumes[1..], r);
      VolumeMeaning(volumes[0], r);
      assert forall i :: 0 < i < |volumes| ==> volumes[i] == volumes[1..][i - 1];
    }
  }

  lemma {:induction false} SecretRefsMeaning(names: seq<string>, r: SpecRef)
    ensures r in SecretRefs(names) <==> exists i :: 0 <= i < |names| && r == SpecRef("Secret", names[i])
  {
    if names != [] {
      SecretRefsMeaning(names[1..], r);
      assert forall i :: 0 < i < |names| ==> names[i] == names[1..][i - 1];
    }
  }

  lemma {:induction false} ContainerRefsMeaning(containers: seq<Container>, r: SpecRef)
    ensures r in ContainerRefs(containers) <==> exists i :: 0 <= i < |containers| && ContainerNames(containers[i], r)
  {
    hide ConfigRefs, EntriesName;
    if containers != [] {
      ContainerRefsMeaning(containers[1..], r);
      ConfigRefsMeaning(containers[0].envFrom, r);
      ConfigRefsMeaning(containers[0].env, r);
      assert forall i :: 0 < i < |containers| ==> containers[i] == containers[1..][i - 1];
    }
  }

  /** The references that are visited are exactly those the fields of the spec hold. */
  lemma AllRefsMeaning(spec: PodSpec, r: SpecRef)
    ensures r in AllRefs(spec) <==> Refers(spec, r)
  {
    hide VolumeRefs, SecretRefs, ContainerRefs, VolumeNames, ContainerNames;
    var init, all := spec.initContainers, spec.initContainers + spec.containers;
    VolumeRefsMeaning(spec.volumes, r);
    SecretRefsMeaning(spec.imagePullSecrets, r);
    ContainerRefsMeaning(all, r);
    assert forall i :: 0 <= i < |init| ==> all[i] == init[i];
    assert forall i :: 0 <= i < |spec.containers| ==> all[|init| + i] == spec.containers[i];
    assert forall i :: |init| <= i < |all| ==> all[i] == spec.containers[i - |init|];
  }

  /** The named references, each at its first occurrence. */
  function FirstOccurrences(refs: seq<SpecRef>, n: nat): (r: seq<SpecRef>)
    requires n <= |refs|
  {
    if n == 0 then []
    else
      var before, ref := FirstOccurrences(refs, n - 1), refs[n - 1];
      if ref.name != "" && ref !in before then before + [ref] else before
  }

  method CollectRefs(spec: PodSpec) returns (refs: seq<SpecRef>)
    ensures refs == RefsOf(spec)
  {
    var all := AllRefs(spec);
    var seen: set<SpecRef> := {};
    refs := [];
    for i := 0 to |all|
      invariant refs == FirstOccurrences(all, i)
      invariant forall r :: r in seen <==> r in refs
    {
      if all[i].name != "" && all[i] !in seen {
        seen := seen + {all[i]};
        refs := refs + [all[i]];
      }
    }
  }

  function RefsOf(spec: PodSpec): seq<SpecRef> {
    FirstOccurrences(AllRefs(spec), |AllRefs(spec)|)
  }

  /** Exactly the named references, none of them twice. */
  lemma {:induction false} FirstOccurrencesMeaning(refs: seq<SpecRef>, n: nat)
    requires n <= |refs|
    ensures forall r :: r in FirstOccurrences(refs, n) <==> r in refs[..n] && r.name != ""
    ensures forall i, j :: 0 <= i < j < |FirstOccurrences(refs, n)| ==>
              FirstOccurrences(refs, n)[i] != FirstOccurrences(refs, n)[j]
  {
    if n > 0 {
      FirstOccurrencesMeaning(refs, n - 1);
      assert refs[..n] == refs[..n - 1] + [refs[n - 1]];
    }
  }

  lemma RefsAreDistinctAndComplete(spec: PodSpec)
    ensures forall r :: r in RefsOf(spec) <==> Refers(spec, r) && r.name != ""
    ensures forall i, j :: 0 <= i < j < |RefsOf(spec)| ==> RefsOf(spec)[i] != RefsOf(spec)[j]
  {
    var all := AllRefs(spec);
    FirstOccurrencesMeaning(all, |all|);
    assert all[..|all|] == all;
    hide AllRefs, Refers, FirstOccurrences;
    forall r ensures r in all <==> Refers(spec, r) {
      AllRefsMeaning(spec, r);
    }
  }

  lemma RefsAreOfKnownKinds(spec: PodSpec)
    ensures OnlyKnownKinds(RefsOf(spec))
  {
    hide VolumeRefs, SecretRefs, ContainerRefs;
    FirstOccurrencesMeaning(AllRefs(spec), |AllRefs(spec)|);
    assert AllRefs(spec)[..|AllRefs(spec)|] == AllRefs(spec);
  }
}
