/** The volume-mount handler: a `mount-volume` annotation carries volumes and
    per-container mounts; each replica gets the volumes with its ordinal
    appended to every ConfigMap and Secret reference, and the mounts go to the
    containers of the same name. */
module Volumes {
  import opened Wrappers
  import opened Strings
  import opened Kube
  import opened HandlerConfig
  import opened Annotations

  const MOUNT_VOLUME: string := "mount-volume"

  // ---------------------------------------------------------------------------
  // Parser

  /** The parser: the first entry named `mount-volume` in the enumeration
      decides; its value is decoded into the payload and carried with the
      entry's qualifier. No such entry gives the nil configuration. */
  function Parse(annotations: map<QualifiedName, string>, order: seq<QualifiedName>,
                 decode: string -> Result<VolumePayload, DecodeError>): (r: Result<Config, DecodeError>)
    requires Enumerates(order, annotations)
    ensures r.Ok? ==> r.value.NilConfig? || r.value.VolumeMountConfig?
    ensures r == Ok(NilConfig) <==> forall k :: k in annotations ==> k.name != MOUNT_VOLUME
    ensures r.Ok? && r.value.VolumeMountConfig? ==>
              exists k :: k in annotations && k.name == MOUNT_VOLUME && k.qualifier == r.value.qualifier
                          && decode(annotations[k]) == Ok(r.value.volumeCfg)
    ensures r.Err? ==>
              exists k :: k in annotations && k.name == MOUNT_VOLUME && decode(annotations[k]) == Err(r.error)
  {
    match FindByName(order, MOUNT_VOLUME)
    case None => Ok(NilConfig)
    case Some(k) =>
      match decode(annotations[k])
      case Ok(payload) => Ok(VolumeMountConfig(k.qualifier, payload))
      case Err(e) => Err(e)
  }

  /** With a single `mount-volume` entry the result no longer depends on the
      enumeration order: that entry's qualifier and decoded payload, or its
      decode error. */
  lemma ParseSingle(annotations: map<QualifiedName, string>, order: seq<QualifiedName>,
                    decode: string -> Result<VolumePayload, DecodeError>, k: QualifiedName)
    requires Enumerates(order, annotations)
    requires k in annotations && k.name == MOUNT_VOLUME
    requires forall k' :: k' in annotations && k'.name == MOUNT_VOLUME ==> k' == k
    ensures decode(annotations[k]).Ok? ==>
              Parse(annotations, order, decode) == Ok(VolumeMountConfig(k.qualifier, decode(annotations[k]).value))
    ensures decode(annotations[k]).Err? ==>
              Parse(annotations, order, decode) == Err(decode(annotations[k]).error)
  {
    var found := FindByName(order, MOUNT_VOLUME);
    assert k in order;
    assert found.Some? && found.value == k;
  }

  // ---------------------------------------------------------------------------
  // Mutator, as a function of the spec's value

  /** `r` is `v` under the same name with `-<ordinal>` appended to each
      reference it has. */
  predicate RenamedAs(v: Volume, r: Volume, ordinal: int) {
    && r.name == v.name
    && (v.configMap.Some? ==> r.configMap == Some(v.configMap.value + OrdinalSuffix(ordinal)))
    && (v.configMap.None? ==> r.configMap.None?)
    && (v.secret.Some? ==> r.secret == Some(v.secret.value + OrdinalSuffix(ordinal)))
    && (v.secret.None? ==> r.secret.None?)
  }

  /** One volume with the ordinal appended to its ConfigMap and Secret references. */
  function RenameVolume(v: Volume, ordinal: int): (r: Volume)
    ensures RenamedAs(v, r, ordinal)
  {
    v.(configMap := if v.configMap.Some? then Some(v.configMap.value + OrdinalSuffix(ordinal)) else None,
       secret := if v.secret.Some? then Some(v.secret.value + OrdinalSuffix(ordinal)) else None)
  }

  function RenamedVolumes(vs: seq<Volume>, ordinal: int): (r: seq<Volume>)
    ensures |r| == |vs|
  {
    seq(|vs|, i requires 0 <= i < |vs| => RenameVolume(vs[i], ordinal))
  }

  /** Every renamed volume carries its original's references with the
      ordinal suffix, in the original order. */
  lemma RenamedVolumesAsSuffixed(vs: seq<Volume>, ordinal: int)
    ensures forall t :: 0 <= t < |vs| ==> RenamedAs(vs[t], RenamedVolumes(vs, ordinal)[t], ordinal)
  {
    forall t | 0 <= t < |vs| ensures RenamedAs(vs[t], RenamedVolumes(vs, ordinal)[t], ordinal) {
      assert RenamedVolumes(vs, ordinal)[t] == RenameVolume(vs[t], ordinal);
    }
  }

  /** The mounts one configuration container contributes to a spec container named `name`. */
  function MountsOf(source: Container, name: string): seq<VolumeMount> {
    if source.name == name then source.volumeMounts else []
  }

  /** The mounts the configuration containers contribute, in their order, to a
      spec container named `name`. */
  function MountsFor(sources: seq<Container>, name: string): seq<VolumeMount>
    decreases |sources|
  {
    if sources == [] then []
    else MountsFor(sources[..|sources| - 1], name) + MountsOf(sources[|sources| - 1], name)
  }

  function MountedContainer(c: Container, sources: seq<Container>): Container {
    c.(volumeMounts := c.volumeMounts + MountsFor(sources, c.name))
  }

  function WithMounts(cs: seq<Container>, sources: seq<Container>): (r: seq<Container>)
    ensures |r| == |cs|
  {
    seq(|cs|, i requires 0 <= i < |cs| => MountedContainer(cs[i], sources))
  }

  /** The spec after a qualifying configuration has been applied. */
  function Mounted(s: SpecState, ordinal: int, p: VolumePayload): SpecState {
    SpecState(WithMounts(s.containers, p.containers), s.volumes + RenamedVolumes(p.volumes, ordinal))
  }

  /** What the mutator does to a spec: a configuration of another kind (nil
      included) is an error; one whose qualifier excludes the ordinal leaves the
      spec as it is. Otherwise the containers keep their number, order, names
      and environment sources, and volumes and mounts are only ever appended. */
  function MutateSpec(s: SpecState, ordinal: int, cfg: Config): (r: Result<SpecState, MutateError>)
    ensures r.Err? <==> !cfg.VolumeMountConfig?
    ensures r.Err? ==> r.error == UnexpectedConfigType
    ensures cfg.VolumeMountConfig? && !Qualifies(ordinal, cfg.qualifier) ==> r == Ok(s)
    ensures r.Ok? ==> |r.value.containers| == |s.containers|
    ensures r.Ok? ==>
              forall i :: 0 <= i < |s.containers| ==>
                && r.value.containers[i].name == s.containers[i].name
                && r.value.containers[i].envFrom == s.containers[i].envFrom
                && |s.containers[i].volumeMounts| <= |r.value.containers[i].volumeMounts|
                && r.value.containers[i].volumeMounts[..|s.containers[i].volumeMounts|] == s.containers[i].volumeMounts
    ensures r.Ok? ==> |s.volumes| <= |r.value.volumes| && r.value.volumes[..|s.volumes|] == s.volumes
  {
    if !cfg.VolumeMountConfig? then Err(UnexpectedConfigType)
    else if Qualifies(ordinal, cfg.qualifier) then
      var r := Mounted(s, ordinal, cfg.volumeCfg);
      assert r.volumes[..|s.volumes|] == s.volumes;
      assert forall i :: 0 <= i < |s.containers| ==>
               r.containers[i].volumeMounts[..|s.containers[i].volumeMounts|] == s.containers[i].volumeMounts;
      Ok(r)
    else Ok(s)
  }

  // ---------------------------------------------------------------------------
  // Mutator, in place

  lemma MountsForSnoc(sources: seq<Container>, j: int, name: string)
    requires 0 <= j < |sources|
    ensures MountsFor(sources[..j + 1], name) == MountsFor(sources[..j], name) + MountsOf(sources[j], name)
  {
    assert sources[..j + 1][..j] == sources[..j];
  }

  /** The renaming loop: every reference of every volume gets the ordinal suffix. */
  method RenameAll(vs: seq<Volume>, ordinal: int) returns (renamed: seq<Volume>)
    ensures renamed == RenamedVolumes(vs, ordinal)
    ensures forall t :: 0 <= t < |vs| ==> RenamedAs(vs[t], renamed[t], ordinal)
  {
    renamed := vs;
    for k := 0 to |renamed|
      invariant |renamed| == |vs|
      invariant forall t :: 0 <= t < k ==> renamed[t] == RenameVolume(vs[t], ordinal)
      invariant forall t :: k <= t < |renamed| ==> renamed[t] == vs[t]
    {
      var v := renamed[k];
      if v.configMap.Some? {
        v := v.(configMap := Some(v.configMap.value + OrdinalSuffix(ordinal)));
      }
      if v.secret.Some? {
        v := v.(secret := Some(v.secret.value + OrdinalSuffix(ordinal)));
      }
      renamed := renamed[k := v];
    }
    RenamedVolumesAsSuffixed(vs, ordinal);
  }

  lemma MountsForOne(source: Container, name: string)
    ensures MountsFor([source], name) == MountsOf(source, name)
  {
    assert [source][..0] == [];
  }

  /** Appending the mounts of one more configuration container to a spec
      already mounted with the ones before it. */
  lemma WithMountsSnoc(cs: seq<Container>, sources: seq<Container>, j: int)
    requires 0 <= j < |sources|
    ensures WithMounts(WithMounts(cs, sources[..j]), [sources[j]]) == WithMounts(cs, sources[..j + 1])
  {
    forall t | 0 <= t < |cs|
      ensures WithMounts(WithMounts(cs, sources[..j]), [sources[j]])[t] == WithMounts(cs, sources[..j + 1])[t]
    {
      var c := cs[t];
      var a := MountedContainer(c, sources[..j]);
      MountsForSnoc(sources, j, c.name);
      MountsForOne(sources[j], c.name);
      assert a.name == c.name;
      assert a.volumeMounts + MountsFor([sources[j]], c.name) == c.volumeMounts + MountsFor(sources[..j + 1], c.name);
    }
  }

  /** The inner loop: every spec container named like `source` gets its
      mounts appended; the others are left alone. */
  method AppendSource(spec: PodSpec, source: Container)
    modifies spec
    ensures spec.containers == WithMounts(old(spec.containers), [source])
    ensures spec.volumes == old(spec.volumes)
  {
    ghost var c0 := spec.containers;
    for i := 0 to |spec.containers|
      invariant spec.volumes == old(spec.volumes)
      invariant |spec.containers| == |c0|
      invariant forall t :: 0 <= t < i ==> spec.containers[t] == MountedContainer(c0[t], [source])
      invariant forall t :: i <= t < |c0| ==> spec.containers[t] == c0[t]
    {
      MountsForOne(source, c0[i].name);
      if source.name == spec.containers[i].name {
        spec.containers := spec.containers[i := spec.containers[i].(volumeMounts := spec.containers[i].volumeMounts + source.volumeMounts)];
      }
    }
  }

  /** The nested loop: for each configuration container, every spec container
      of the same name gets that entry's mounts appended. */
  method AppendToMatching(spec: PodSpec, sources: seq<Container>)
    modifies spec
    ensures spec.containers == WithMounts(old(spec.containers), sources)
    ensures spec.volumes == old(spec.volumes)
  {
    ghost var c0 := spec.containers;
    assert c0 == WithMounts(c0, sources[..0]) by {
      forall t | 0 <= t < |c0| ensures c0[t] == MountedContainer(c0[t], sources[..0]) {
        assert c0[t].volumeMounts + [] == c0[t].volumeMounts;
      }
    }
    for j := 0 to |sources|
      invariant spec.volumes == old(spec.volumes)
      invariant spec.containers == WithMounts(c0, sources[..j])
    {
      AppendSource(spec, sources[j]);
      WithMountsSnoc(c0, sources, j);
    }
    assert sources[..|sources|] == sources;
  }

  /** The handler's `Mutate`: renames the configuration's references, appends
      the volumes to the spec's, then hands each configuration container's
      mounts to the spec containers of the same name. */
  method Mutate(spec: PodSpec, ordinal: int, cfg: Config) returns (err: Option<MutateError>)
    modifies spec
    ensures MutateSpec(old(spec.State()), ordinal, cfg).Ok? ==>
              err.None? && spec.State() == MutateSpec(old(spec.State()), ordinal, cfg).value
    ensures MutateSpec(old(spec.State()), ordinal, cfg).Err? ==>
              err == Some(MutateSpec(old(spec.State()), ordinal, cfg).error) && spec.State() == old(spec.State())
  {
    if !cfg.VolumeMountConfig? {
      return Some(UnexpectedConfigType);
    }
    if Qualifies(ordinal, cfg.qualifier) {
      var renamed := RenameAll(cfg.volumeCfg.volumes, ordinal);
      spec.volumes := spec.volumes + renamed;
      AppendToMatching(spec, cfg.volumeCfg.containers);
    }
    return None;
  }

  // ---------------------------------------------------------------------------
  // Properties

  /** The new volume list is the old one followed by the configuration's
      volumes, in order, each with its references suffixed by the ordinal. */
  lemma MutateAppendsRenamedVolumes(s: SpecState, ordinal: int, cfg: Config)
    requires cfg.VolumeMountConfig? && Qualifies(ordinal, cfg.qualifier)
    ensures var r := MutateSpec(s, ordinal, cfg).value;
            var vs := cfg.volumeCfg.volumes;
            && |r.volumes| == |s.volumes| + |vs|
            && r.volumes[..|s.volumes|] == s.volumes
            && forall i :: 0 <= i < |vs| ==>
                 && r.volumes[|s.volumes| + i].name == vs[i].name
                 && (vs[i].configMap.Some? ==> r.volumes[|s.volumes| + i].configMap == Some(vs[i].configMap.value + OrdinalSuffix(ordinal)))
                 && (vs[i].configMap.None? ==> r.volumes[|s.volumes| + i].configMap.None?)
                 && (vs[i].secret.Some? ==> r.volumes[|s.volumes| + i].secret == Some(vs[i].secret.value + OrdinalSuffix(ordinal)))
                 && (vs[i].secret.None? ==> r.volumes[|s.volumes| + i].secret.None?)
  {
    var r := MutateSpec(s, ordinal, cfg).value;
    var vs := cfg.volumeCfg.volumes;
    forall i | 0 <= i < |vs|
      ensures r.volumes[|s.volumes| + i] == RenameVolume(vs[i], ordinal)
    {
    }
  }

  /** No configuration container contributes to a container of another name. */
  lemma {:induction false} MountsForUnmatched(sources: seq<Container>, name: string)
    requires forall j :: 0 <= j < |sources| ==> sources[j].name != name
    ensures MountsFor(sources, name) == []
    decreases |sources|
  {
    if sources != [] {
      MountsForUnmatched(sources[..|sources| - 1], name);
    }
  }

  /** Mounts contributed by two runs of configuration containers are those of
      the first run followed by those of the second. */
  lemma {:induction false} MountsForAppend(s1: seq<Container>, s2: seq<Container>, name: string)
    ensures MountsFor(s1 + s2, name) == MountsFor(s1, name) + MountsFor(s2, name)
    decreases |s2|
  {
    if s2 != [] {
      var init := s2[..|s2| - 1];
      assert (s1 + s2)[..|s1 + s2| - 1] == s1 + init;
      assert (s1 + s2)[|s1 + s2| - 1] == s2[|s2| - 1];
      MountsForAppend(s1, init, name);
    } else {
      assert s1 + s2 == s1;
    }
  }

  /** A single configuration container of that name contributes exactly its mounts. */
  lemma MountsForSingle(sources: seq<Container>, j: int, name: string)
    requires 0 <= j < |sources| && sources[j].name == name
    requires forall j' :: 0 <= j' < |sources| && j' != j ==> sources[j'].name != name
    ensures MountsFor(sources, name) == sources[j].volumeMounts
  {
    assert sources == sources[..j] + [sources[j]] + sources[j + 1..];
    MountsForUnmatched(sources[..j], name);
    MountsForUnmatched(sources[j + 1..], name);
    MountsForAppend(sources[..j] + [sources[j]], sources[j + 1..], name);
    MountsForAppend(sources[..j], [sources[j]], name);
    assert MountsFor([sources[j]], name) == MountsFor([], name) + MountsOf(sources[j], name);
  }

  /** A spec container that no configuration container names is left untouched. */
  lemma MutateLeavesUnmatched(s: SpecState, ordinal: int, cfg: Config, i: int)
    requires cfg.VolumeMountConfig? && 0 <= i < |s.containers|
    requires forall j :: 0 <= j < |cfg.volumeCfg.containers| ==> cfg.volumeCfg.containers[j].name != s.containers[i].name
    ensures MutateSpec(s, ordinal, cfg).value.containers[i] == s.containers[i]
  {
    MountsForUnmatched(cfg.volumeCfg.containers, s.containers[i].name);
  }

  /** A spec container named by exactly one configuration container gets that
      entry's mounts appended. */
  lemma MutateMountsMatched(s: SpecState, ordinal: int, cfg: Config, i: int, j: int)
    requires cfg.VolumeMountConfig? && Qualifies(ordinal, cfg.qualifier)
    requires 0 <= i < |s.containers|
    requires 0 <= j < |cfg.volumeCfg.containers| && cfg.volumeCfg.containers[j].name == s.containers[i].name
    requires forall j' :: 0 <= j' < |cfg.volumeCfg.containers| && j' != j ==>
               cfg.volumeCfg.containers[j'].name != s.containers[i].name
    ensures MutateSpec(s, ordinal, cfg).value.containers[i].volumeMounts
            == s.containers[i].volumeMounts + cfg.volumeCfg.containers[j].volumeMounts
  {
    MountsForSingle(cfg.volumeCfg.containers, j, s.containers[i].name);
  }

  /** The configuration containers named `name`, in their order. */
  function Named(sources: seq<Container>, name: string): (r: seq<Container>)
    ensures |r| <= |sources|
    ensures forall k :: 0 <= k < |r| ==> r[k].name == name && r[k] in sources
  {
    if sources == [] then []
    else (if sources[0].name == name then [sources[0]] else []) + Named(sources[1..], name)
  }

  /** The mounts of a list of containers, one container's after another's. */
  function AllMounts(cs: seq<Container>): seq<VolumeMount> {
    if cs == [] then [] else cs[0].volumeMounts + AllMounts(cs[1..])
  }

  /** What a spec container receives is the mounts of every configuration
      container of its name, in the configuration's order. */
  lemma {:induction false} MountsForNamed(sources: seq<Container>, name: string)
    ensures MountsFor(sources, name) == AllMounts(Named(sources, name))
    decreases |sources|
  {
    if sources != [] {
      var rest := sources[1..];
      assert sources == [sources[0]] + rest;
      MountsForAppend([sources[0]], rest, name);
      assert [sources[0]][..0] == [];
      assert MountsFor([sources[0]], name) == MountsOf(sources[0], name);
      MountsForNamed(rest, name);
      if sources[0].name == name {
        var n := [sources[0]] + Named(rest, name);
        assert n[1..] == Named(rest, name);
      } else {
        assert Named(sources, name) == Named(rest, name);
      }
    }
  }

  /** Every spec container ends with its old mounts followed by those of all
      the configuration containers of its name, in order: an entry listed
      twice contributes twice. */
  lemma MutateMountsAll(s: SpecState, ordinal: int, cfg: Config, i: int)
    requires cfg.VolumeMountConfig? && Qualifies(ordinal, cfg.qualifier)
    requires 0 <= i < |s.containers|
    ensures MutateSpec(s, ordinal, cfg).value.containers[i]
            == s.containers[i].(volumeMounts := s.containers[i].volumeMounts
                                  + AllMounts(Named(cfg.volumeCfg.containers, s.containers[i].name)))
  {
    MountsForNamed(cfg.volumeCfg.containers, s.containers[i].name);
  }

  /** Two configuration entries for the same container both land on it, the
      first entry's mounts before the second's. */
  lemma MutateTwoEntriesExample(p: VolumePayload, m1: seq<VolumeMount>, m2: seq<VolumeMount>)
    requires p.containers == [Container("main-container", m1, []), Container("main-container", m2, [])]
    ensures MutateSpec(SpecState([Container("main-container", [], [])], []), 0, VolumeMountConfig("", p))
              .value.containers == [Container("main-container", m1 + m2, [])]
  {
    var s := SpecState([Container("main-container", [], [])], []);
    assert Qualifies(0, "");
    MutateMountsAll(s, 0, VolumeMountConfig("", p), 0);
    var n := Named(p.containers, "main-container");
    assert p.containers[1..] == [p.containers[1]];
    assert [p.containers[1]][1..] == [];
    assert n == [p.containers[0], p.containers[1]];
    assert n[1..] == [p.containers[1]];
    assert AllMounts([p.containers[1]]) == m2 + AllMounts([]);
    assert AllMounts(n) == m1 + AllMounts([p.containers[1]]);
    assert AllMounts(n) == m1 + (m2 + []);
    assert [] + (m1 + (m2 + [])) == m1 + m2;
  }

  /** The mutator is not idempotent: applying a qualifying configuration twice
      adds its volumes twice. */
  lemma MutateTwiceAppendsTwice(s: SpecState, ordinal: int, cfg: Config)
    requires cfg.VolumeMountConfig? && Qualifies(ordinal, cfg.qualifier)
    ensures var once := MutateSpec(s, ordinal, cfg).value;
            |MutateSpec(once, ordinal, cfg).value.volumes| == |s.volumes| + 2 * |cfg.volumeCfg.volumes|
  {
  }

  /** A ConfigMap volume applied at ordinal 0: `my-configmap` becomes
      `my-configmap-0` and the mount lands on the container of the same name. */
  lemma MutateConfigMapExample()
    ensures var mount := VolumeMount("my-config", "/etc/" + "my-config");
            var cfg := VolumeMountConfig("", VolumePayload(
                         [Volume("my-config", Some("my-configmap"), None)],
                         [Container("main-container", [mount], [])]));
            MutateSpec(SpecState([Container("main-container", [], [])], []), 0, cfg)
            == Ok(SpecState([Container("main-container", [mount], [])],
                            [Volume("my-config", Some("my-configmap" + "-" + "0"), None)]))
  {
    var mount := VolumeMount("my-config", "/etc/" + "my-config");
    var main := Container("main-container", [mount], []);
    var s := SpecState([Container("main-container", [], [])], []);
    var p := VolumePayload([Volume("my-config", Some("my-configmap"), None)], [main]);
    assert Itoa(0) == "0";
    assert OrdinalSuffix(0) == "-" + "0";
    assert Qualifies(0, "");
    var r := Mounted(s, 0, p);
    assert r.containers == [main] by {
      assert [main][..0] == [];
      assert MountsFor([main], "main-container") == [mount];
      assert r.containers[0] == MountedContainer(s.containers[0], [main]);
      assert [] + [mount] == [mount];
    }
    assert r.volumes == [Volume("my-config", Some("my-configmap" + "-" + "0"), None)] by {
      assert |r.volumes| == 1;
      assert r.volumes == [] + RenamedVolumes(p.volumes, 0);
      assert r.volumes[0] == RenameVolume(Volume("my-config", Some("my-configmap"), None), 0);
      assert r.volumes[0] == Volume("my-config", Some("my-configmap" + OrdinalSuffix(0)), None);
      assert "my-configmap" + OrdinalSuffix(0) == "my-configmap" + "-" + "0";
    }
  }

  /** A Secret volume applied at ordinal 0: `my-secret` becomes `my-secret-0`. */
  lemma MutateSecretExample()
    ensures var mount := VolumeMount("my-secret", "/etc/" + "my-secret");
            var cfg := VolumeMountConfig("", VolumePayload(
                         [Volume("my-secret", None, Some("my-secret"))],
                         [Container("main-container", [mount], [])]));
            MutateSpec(SpecState([Container("main-container", [], [])], []), 0, cfg)
            == Ok(SpecState([Container("main-container", [mount], [])],
                            [Volume("my-secret", None, Some("my-secret" + "-" + "0"))]))
  {
    var mount := VolumeMount("my-secret", "/etc/" + "my-secret");
    var main := Container("main-container", [mount], []);
    var s := SpecState([Container("main-container", [], [])], []);
    var p := VolumePayload([Volume("my-secret", None, Some("my-secret"))], [main]);
    assert Itoa(0) == "0";
    assert OrdinalSuffix(0) == "-" + "0";
    assert Qualifies(0, "");
    var r := Mounted(s, 0, p);
    assert r.containers == [main] by {
      assert [main][..0] == [];
      assert MountsFor([main], "main-container") == [mount];
      assert r.containers[0] == MountedContainer(s.containers[0], [main]);
      assert [] + [mount] == [mount];
    }
    assert r.volumes == [Volume("my-secret", None, Some("my-secret" + "-" + "0"))] by {
      assert |r.volumes| == 1;
      assert r.volumes == [] + RenamedVolumes(p.volumes, 0);
      assert r.volumes[0] == RenameVolume(Volume("my-secret", None, Some("my-secret")), 0);
      assert r.volumes[0] == Volume("my-secret", None, Some("my-secret" + OrdinalSuffix(0)));
      assert "my-secret" + OrdinalSuffix(0) == "my-secret" + "-" + "0";
    }
  }

  /** Qualifier `1-2` excludes replica 0, whose spec is left as it is. */
  lemma MutateExcludedExample(s: SpecState, p: VolumePayload)
    ensures MutateSpec(s, 0, VolumeMountConfig("1-2", p)) == Ok(s)
  {
    QualifierExamplesClosed();
  }
}
