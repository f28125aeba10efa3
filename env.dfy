/** The env-mount handler: a `mount-env` annotation carries a list of
    environment sources and a list of containers; each replica gets the sources
    with its ordinal appended to every ConfigMap and Secret reference, and
    every spec container named by a configuration container gets the whole
    list. */
module Env {
  import opened Wrappers
  import opened Strings
  import opened Kube
  import opened HandlerConfig
  import opened Annotations

  const MOUNT_ENV: string := "mount-env"

  // ---------------------------------------------------------------------------
  // Parser

  /** The parser: the first entry named `mount-env` in the enumeration decides;
      its value is decoded into the payload and carried with the entry's
      qualifier. No such entry gives the nil configuration. */
  function Parse(annotations: map<QualifiedName, string>, order: seq<QualifiedName>,
                 decode: string -> Result<EnvPayload, DecodeError>): (r: Result<Config, DecodeError>)
    requires Enumerates(order, annotations)
    ensures r.Ok? ==> r.value.NilConfig? || r.value.EnvMountConfig?
    ensures r == Ok(NilConfig) <==> forall k :: k in annotations ==> k.name != MOUNT_ENV
    ensures r.Ok? && r.value.EnvMountConfig? ==>
              exists k :: k in annotations && k.name == MOUNT_ENV && k.qualifier == r.value.qualifier
                          && decode(annotations[k]) == Ok(r.value.envCfg)
    ensures r.Err? ==>
              exists k :: k in annotations && k.name == MOUNT_ENV && decode(annotations[k]) == Err(r.error)
  {
    match FindByName(order, MOUNT_ENV)
    case None => Ok(NilConfig)
    case Some(k) =>
      match decode(annotations[k])
      case Ok(payload) => Ok(EnvMountConfig(k.qualifier, payload))
      case Err(e) => Err(e)
  }

  /** With a single `mount-env` entry the result no longer depends on the
      enumeration order. */
  lemma ParseSingle(annotations: map<QualifiedName, string>, order: seq<QualifiedName>,
                    decode: string -> Result<EnvPayload, DecodeError>, k: QualifiedName)
    requires Enumerates(order, annotations)
    requires k in annotations && k.name == MOUNT_ENV
    requires forall k' :: k' in annotations && k'.name == MOUNT_ENV ==> k' == k
    ensures decode(annotations[k]).Ok? ==>
              Parse(annotations, order, decode) == Ok(EnvMountConfig(k.qualifier, decode(annotations[k]).value))
    ensures decode(annotations[k]).Err? ==>
              Parse(annotations, order, decode) == Err(decode(annotations[k]).error)
  {
    var found := FindByName(order, MOUNT_ENV);
    assert k in order;
    assert found.Some? && found.value == k;
  }

  // ---------------------------------------------------------------------------
  // Mutator, as a function of the spec's value

  /** One environment source with the ordinal appended to its references. */
  function RenameEnvFrom(e: EnvFromSource, ordinal: int): (r: EnvFromSource)
    ensures r.configMapRef.Some? <==> e.configMapRef.Some?
    ensures r.secretRef.Some? <==> e.secretRef.Some?
    ensures RenamedAs(e, r, ordinal)
  {
    EnvFromSource(
      if e.configMapRef.Some? then Some(e.configMapRef.value + OrdinalSuffix(ordinal)) else None,
      if e.secretRef.Some? then Some(e.secretRef.value + OrdinalSuffix(ordinal)) else None)
  }

  function RenamedEnvFroms(es: seq<EnvFromSource>, ordinal: int): (r: seq<EnvFromSource>)
    ensures |r| == |es|
  {
    seq(|es|, i requires 0 <= i < |es| => RenameEnvFrom(es[i], ordinal))
  }

  /** `r` is `e` with `-<ordinal>` appended to each reference it has. */
  predicate RenamedAs(e: EnvFromSource, r: EnvFromSource, ordinal: int) {
    && (e.configMapRef.Some? ==> r.configMapRef == Some(e.configMapRef.value + OrdinalSuffix(ordinal)))
    && (e.configMapRef.None? ==> r.configMapRef.None?)
    && (e.secretRef.Some? ==> r.secretRef == Some(e.secretRef.value + OrdinalSuffix(ordinal)))
    && (e.secretRef.None? ==> r.secretRef.None?)
  }

  /** Every renamed source carries its original's references with the
      ordinal suffix, in the original order. */
  lemma RenamedEnvFromsAsSuffixed(es: seq<EnvFromSource>, ordinal: int)
    ensures forall t :: 0 <= t < |es| ==> RenamedAs(es[t], RenamedEnvFroms(es, ordinal)[t], ordinal)
  {
    forall t | 0 <= t < |es| ensures RenamedAs(es[t], RenamedEnvFroms(es, ordinal)[t], ordinal) {
      assert RenamedEnvFroms(es, ordinal)[t] == RenameEnvFrom(es[t], ordinal);
    }
  }

  /** The renaming is undone by cutting at the last '-': each renamed
      reference gives back the original reference and the replica ordinal. */
  lemma RenamedRefsSplitBack(e: EnvFromSource, ordinal: nat)
    ensures var r := RenameEnvFrom(e, ordinal);
            && (e.configMapRef.Some? ==>
                  var n := r.configMapRef.value;
                  var i := LastIndexOf(n, '-');
                  i == |e.configMapRef.value| && n[..i] == e.configMapRef.value && Atoi(n[i + 1..]) == Some(ordinal))
            && (e.secretRef.Some? ==>
                  var n := r.secretRef.value;
                  var i := LastIndexOf(n, '-');
                  i == |e.secretRef.value| && n[..i] == e.secretRef.value && Atoi(n[i + 1..]) == Some(ordinal))
  {
    if e.configMapRef.Some? {
      OrdinalSuffixSplit(e.configMapRef.value, ordinal);
    }
    if e.secretRef.Some? {
      OrdinalSuffixSplit(e.secretRef.value, ordinal);
    }
  }

  /** What the configuration containers add to a spec container named `name`:
      the whole list `envFrom` once for each of them that bears the name. The
      configuration containers' own environment sources play no part. */
  function EnvFromFor(sources: seq<Container>, name: string, envFrom: seq<EnvFromSource>): seq<EnvFromSource>
    decreases |sources|
  {
    if sources == [] then []
    else
      EnvFromFor(sources[..|sources| - 1], name, envFrom)
      + (if sources[|sources| - 1].name == name then envFrom else [])
  }

  function EnvMountedContainer(c: Container, sources: seq<Container>, envFrom: seq<EnvFromSource>): Container {
    c.(envFrom := c.envFrom + EnvFromFor(sources, c.name, envFrom))
  }

  function WithEnvFrom(cs: seq<Container>, sources: seq<Container>, envFrom: seq<EnvFromSource>): (r: seq<Container>)
    ensures |r| == |cs|
  {
    seq(|cs|, i requires 0 <= i < |cs| => EnvMountedContainer(cs[i], sources, envFrom))
  }

  /** The spec after a qualifying configuration has been applied. */
  function EnvMounted(s: SpecState, ordinal: int, p: EnvPayload): SpecState {
    SpecState(WithEnvFrom(s.containers, p.containers, RenamedEnvFroms(p.envFrom, ordinal)), s.volumes)
  }

  /** What the mutator does to a spec: a configuration of another kind (nil
      included) is an error; one whose qualifier excludes the ordinal leaves the
      spec as it is. Otherwise the volumes are untouched, the containers keep
      their number, order, names and mounts, and environment sources are only
      ever appended. */
  function MutateSpec(s: SpecState, ordinal: int, cfg: Config): (r: Result<SpecState, MutateError>)
    ensures r.Err? <==> !cfg.EnvMountConfig?
    ensures r.Err? ==> r.error == UnexpectedConfigType
    ensures cfg.EnvMountConfig? && !Qualifies(ordinal, cfg.qualifier) ==> r == Ok(s)
    ensures r.Ok? ==> r.value.volumes == s.volumes && |r.value.containers| == |s.containers|
    ensures r.Ok? ==>
              forall i :: 0 <= i < |s.containers| ==>
                && r.value.containers[i].name == s.containers[i].name
                && r.value.containers[i].volumeMounts == s.containers[i].volumeMounts
                && |s.containers[i].envFrom| <= |r.value.containers[i].envFrom|
                && r.value.containers[i].envFrom[..|s.containers[i].envFrom|] == s.containers[i].envFrom
  {
    if !cfg.EnvMountConfig? then Err(UnexpectedConfigType)
    else if Qualifies(ordinal, cfg.qualifier) then
      var r := EnvMounted(s, ordinal, cfg.envCfg);
      assert forall i :: 0 <= i < |s.containers| ==>
               r.containers[i].envFrom[..|s.containers[i].envFrom|] == s.containers[i].envFrom;
      Ok(r)
    else Ok(s)
  }

  // ---------------------------------------------------------------------------
  // Mutator, in place

  lemma EnvFromForSnoc(sources: seq<Container>, j: int, name: string, envFrom: seq<EnvFromSource>)
    requires 0 <= j < |sources|
    ensures EnvFromFor(sources[..j + 1], name, envFrom)
            == EnvFromFor(sources[..j], name, envFrom) + (if sources[j].name == name then envFrom else [])
  {
    assert sources[..j + 1][..j] == sources[..j];
  }

  /** The renaming loop: every reference of every source gets the ordinal
      suffix, and an absent reference stays absent. */
  method RenameAll(es: seq<EnvFromSource>, ordinal: int) returns (renamed: seq<EnvFromSource>)
    ensures renamed == RenamedEnvFroms(es, ordinal)
    ensures |renamed| == |es|
    ensures forall t :: 0 <= t < |es| ==> RenamedAs(es[t], renamed[t], ordinal)
  {
    renamed := es;
    for k := 0 to |renamed|
      invariant |renamed| == |es|
      invariant forall t :: 0 <= t < k ==> renamed[t] == RenameEnvFrom(es[t], ordinal)
      invariant forall t :: k <= t < |renamed| ==> renamed[t] == es[t]
    {
      var e := renamed[k];
      if e.configMapRef.Some? {
        e := e.(configMapRef := Some(e.configMapRef.value + OrdinalSuffix(ordinal)));
      }
      if e.secretRef.Some? {
        e := e.(secretRef := Some(e.secretRef.value + OrdinalSuffix(ordinal)));
      }
      renamed := renamed[k := e];
    }
    RenamedEnvFromsAsSuffixed(es, ordinal);
  }

  lemma EnvFromForOne(source: Container, name: string, envFrom: seq<EnvFromSource>)
    ensures EnvFromFor([source], name, envFrom) == (if source.name == name then envFrom else [])
  {
    assert [source][..0] == [];
  }

  /** Appending the sources for one more configuration container to a spec
      already given the ones for the containers before it. */
  lemma WithEnvFromSnoc(cs: seq<Container>, sources: seq<Container>, j: int, envFrom: seq<EnvFromSource>)
    requires 0 <= j < |sources|
    ensures WithEnvFrom(WithEnvFrom(cs, sources[..j], envFrom), [sources[j]], envFrom)
            == WithEnvFrom(cs, sources[..j + 1], envFrom)
  {
    forall t | 0 <= t < |cs|
      ensures WithEnvFrom(WithEnvFrom(cs, sources[..j], envFrom), [sources[j]], envFrom)[t]
              == WithEnvFrom(cs, sources[..j + 1], envFrom)[t]
    {
      EnvFromForSnoc(sources, j, cs[t].name, envFrom);
      EnvFromForOne(sources[j], cs[t].name, envFrom);
    }
  }

  /** The inner loop: every spec container named like `source` gets the
      sources appended; the others are left alone. */
  method AppendSource(spec: PodSpec, source: Container, envFrom: seq<EnvFromSource>)
    modifies spec
    ensures spec.containers == WithEnvFrom(old(spec.containers), [source], envFrom)
    ensures spec.volumes == old(spec.volumes)
  {
    ghost var c0 := spec.containers;
    for i := 0 to |spec.containers|
      invariant spec.volumes == old(spec.volumes)
      invariant |spec.containers| == |c0|
      invariant forall t :: 0 <= t < i ==> spec.containers[t] == EnvMountedContainer(c0[t], [source], envFrom)
      invariant forall t :: i <= t < |c0| ==> spec.containers[t] == c0[t]
    {
      EnvFromForOne(source, c0[i].name, envFrom);
      if source.name == spec.containers[i].name {
        spec.containers := spec.containers[i := spec.containers[i].(envFrom := spec.containers[i].envFrom + envFrom)];
      }
    }
  }

  /** The nested loop: for each configuration container, every spec container
      of the same name gets the renamed sources appended. */
  method AppendToMatching(spec: PodSpec, sources: seq<Container>, envFrom: seq<EnvFromSource>)
    modifies spec
    ensures spec.containers == WithEnvFrom(old(spec.containers), sources, envFrom)
    ensures spec.volumes == old(spec.volumes)
  {
    ghost var c0 := spec.containers;
    assert c0 == WithEnvFrom(c0, sources[..0], envFrom) by {
      forall t | 0 <= t < |c0| ensures c0[t] == EnvMountedContainer(c0[t], sources[..0], envFrom) {
        assert c0[t].envFrom + [] == c0[t].envFrom;
      }
    }
    for j := 0 to |sources|
      invariant spec.volumes == old(spec.volumes)
      invariant spec.containers == WithEnvFrom(c0, sources[..j], envFrom)
    {
      AppendSource(spec, sources[j], envFrom);
      WithEnvFromSnoc(c0, sources, j, envFrom);
    }
    assert sources[..|sources|] == sources;
  }

  /** The handler's `Mutate`: renames the references of the environment
      sources, then appends the whole list to each spec container named by a
      configuration container, once per such configuration container. */
  method Mutate(spec: PodSpec, ordinal: int, cfg: Config) returns (err: Option<MutateError>)
    modifies spec
    ensures MutateSpec(old(spec.State()), ordinal, cfg).Ok? ==>
              err.None? && spec.State() == MutateSpec(old(spec.State()), ordinal, cfg).value
    ensures MutateSpec(old(spec.State()), ordinal, cfg).Err? ==>
              err == Some(MutateSpec(old(spec.State()), ordinal, cfg).error) && spec.State() == old(spec.State())
  {
    if !cfg.EnvMountConfig? {
      return Some(UnexpectedConfigType);
    }
    if Qualifies(ordinal, cfg.qualifier) {
      var envFrom := RenameAll(cfg.envCfg.envFrom, ordinal);
      AppendToMatching(spec, cfg.envCfg.containers, envFrom);
    }
    return None;
  }

  // ---------------------------------------------------------------------------
  // Properties

  function Names(cs: seq<Container>): (r: seq<string>)
    ensures |r| == |cs|
  {
    seq(|cs|, j requires 0 <= j < |cs| => cs[j].name)
  }

  /** The number of configuration containers named `name`. */
  function Count(sources: seq<Container>, name: string): nat {
    multiset(Names(sources))[name]
  }

  /** `n` copies of `es`, one after the other. */
  function Repeat(es: seq<EnvFromSource>, n: nat): (r: seq<EnvFromSource>)
    ensures |r| == n * |es|
  {
    if n == 0 then [] else es + Repeat(es, n - 1)
  }

  lemma {:induction false} RepeatSnoc(es: seq<EnvFromSource>, n: nat)
    ensures Repeat(es, n) + es == Repeat(es, n + 1)
  {
    if n > 0 {
      RepeatSnoc(es, n - 1);
    }
  }

  lemma CountSnoc(sources: seq<Container>, name: string)
    requires sources != []
    ensures var init := sources[..|sources| - 1];
            Count(sources, name) == Count(init, name) + (if sources[|sources| - 1].name == name then 1 else 0)
  {
    var init := sources[..|sources| - 1];
    assert Names(sources) == Names(init) + [sources[|sources| - 1].name];
  }

  /** A spec container receives the list once per configuration container of
      its name, in full each time. */
  lemma {:induction false} EnvFromForRepeat(sources: seq<Container>, name: string, envFrom: seq<EnvFromSource>)
    ensures EnvFromFor(sources, name, envFrom) == Repeat(envFrom, Count(sources, name))
    decreases |sources|
  {
    if sources != [] {
      var init := sources[..|sources| - 1];
      EnvFromForRepeat(init, name, envFrom);
      CountSnoc(sources, name);
      if sources[|sources| - 1].name == name {
        RepeatSnoc(envFrom, Count(init, name));
      } else {
        assert EnvFromFor(sources, name, envFrom) == EnvFromFor(init, name, envFrom) + [];
      }
    } else {
      assert Names(sources) == [];
    }
  }

  /** After a qualifying configuration, every spec container has its old
      sources followed by the renamed top-level list, repeated once per
      configuration container of its name (zero times for an unmatched one). */
  lemma MutateAppendsEnvFrom(s: SpecState, ordinal: int, cfg: Config, i: int)
    requires cfg.EnvMountConfig? && Qualifies(ordinal, cfg.qualifier)
    requires 0 <= i < |s.containers|
    ensures var c := s.containers[i];
            MutateSpec(s, ordinal, cfg).value.containers[i].envFrom
            == c.envFrom + Repeat(RenamedEnvFroms(cfg.envCfg.envFrom, ordinal), Count(cfg.envCfg.containers, c.name))
  {
    EnvFromForRepeat(cfg.envCfg.containers, s.containers[i].name, RenamedEnvFroms(cfg.envCfg.envFrom, ordinal));
  }

  /** A spec container named by exactly one configuration container ends with
      its old sources followed by the top-level list, each reference of which
      carries the ordinal suffix. */
  lemma MutateRenamesEnvFromOnce(s: SpecState, ordinal: int, cfg: Config, i: int)
    requires cfg.EnvMountConfig? && Qualifies(ordinal, cfg.qualifier)
    requires 0 <= i < |s.containers|
    requires Count(cfg.envCfg.containers, s.containers[i].name) == 1
    ensures var before := s.containers[i].envFrom;
            var es := cfg.envCfg.envFrom;
            var r := MutateSpec(s, ordinal, cfg).value.containers[i].envFrom;
            && |r| == |before| + |es|
            && r[..|before|] == before
            && forall t :: 0 <= t < |es| ==> RenamedAs(es[t], r[|before| + t], ordinal)
  {
    var es := cfg.envCfg.envFrom;
    var renamed := RenamedEnvFroms(es, ordinal);
    MutateAppendsEnvFrom(s, ordinal, cfg, i);
    assert Repeat(renamed, 1) == renamed + [];
    RenamedEnvFromsAsSuffixed(es, ordinal);
  }

  /** A spec container that no configuration container names is left untouched. */
  lemma MutateLeavesUnmatched(s: SpecState, ordinal: int, cfg: Config, i: int)
    requires cfg.EnvMountConfig? && 0 <= i < |s.containers|
    requires forall j :: 0 <= j < |cfg.envCfg.containers| ==> cfg.envCfg.containers[j].name != s.containers[i].name
    ensures MutateSpec(s, ordinal, cfg).value.containers[i] == s.containers[i]
  {
    if Qualifies(ordinal, cfg.qualifier) {
      var e := RenamedEnvFroms(cfg.envCfg.envFrom, ordinal);
      EnvFromForRepeat(cfg.envCfg.containers, s.containers[i].name, e);
      assert s.containers[i].name !in multiset(Names(cfg.envCfg.containers));
      assert s.containers[i].envFrom + [] == s.containers[i].envFrom;
    }
  }

  /** Only the names of the configuration containers matter: two payloads with
      the same top-level list and containers of the same names, in the same
      order, mutate a spec identically, whatever their own `envFrom` or mounts. */
  lemma {:induction false} EnvFromForNamesOnly(s1: seq<Container>, s2: seq<Container>, name: string, envFrom: seq<EnvFromSource>)
    requires |s1| == |s2|
    requires forall j :: 0 <= j < |s1| ==> s1[j].name == s2[j].name
    ensures EnvFromFor(s1, name, envFrom) == EnvFromFor(s2, name, envFrom)
    decreases |s1|
  {
    if s1 != [] {
      EnvFromForNamesOnly(s1[..|s1| - 1], s2[..|s2| - 1], name, envFrom);
    }
  }

  lemma MutateIgnoresEntryEnvFrom(s: SpecState, ordinal: int, q: string, envFrom: seq<EnvFromSource>,
                                  cs1: seq<Container>, cs2: seq<Container>)
    requires |cs1| == |cs2|
    requires forall j :: 0 <= j < |cs1| ==> cs1[j].name == cs2[j].name
    ensures MutateSpec(s, ordinal, EnvMountConfig(q, EnvPayload(envFrom, cs1)))
            == MutateSpec(s, ordinal, EnvMountConfig(q, EnvPayload(envFrom, cs2)))
  {
    var e := RenamedEnvFroms(envFrom, ordinal);
    forall i | 0 <= i < |s.containers|
      ensures EnvMountedContainer(s.containers[i], cs1, e) == EnvMountedContainer(s.containers[i], cs2, e)
    {
      EnvFromForNamesOnly(cs1, cs2, s.containers[i].name, e);
    }
    assert WithEnvFrom(s.containers, cs1, e) == WithEnvFrom(s.containers, cs2, e);
  }

  /** Two configuration entries naming the same container give it the renamed
      list twice; the entries' own sources are not what is appended. */
  lemma MutateDuplicateEntryExample(own: seq<EnvFromSource>)
    ensures var ref := EnvFromSource(Some("my-configmap"), None);
            var renamed := EnvFromSource(Some("my-configmap" + "-" + "1"), None);
            var entry := Container("main-container", [], own);
            MutateSpec(SpecState([Container("main-container", [], [])], []), 1,
                       EnvMountConfig("", EnvPayload([ref], [entry, entry])))
            == Ok(SpecState([Container("main-container", [], [renamed, renamed])], []))
  {
    var ref := EnvFromSource(Some("my-configmap"), None);
    var renamed := EnvFromSource(Some("my-configmap" + "-" + "1"), None);
    var entry := Container("main-container", [], own);
    var s := SpecState([Container("main-container", [], [])], []);
    assert Itoa(1) == "1";
    assert OrdinalSuffix(1) == "-" + "1";
    assert "my-configmap" + OrdinalSuffix(1) == "my-configmap" + "-" + "1";
    assert Qualifies(1, "");
    var e := RenamedEnvFroms([ref], 1);
    assert e == [renamed] by {
      assert e[0] == RenameEnvFrom(ref, 1);
    }
    var r := EnvMounted(s, 1, EnvPayload([ref], [entry, entry]));
    assert r.containers[0] == EnvMountedContainer(s.containers[0], [entry, entry], e);
    assert [entry, entry][..1] == [entry];
    assert [entry][..0] == [];
    assert EnvFromFor([entry], "main-container", e) == [renamed];
    assert EnvFromFor([entry, entry], "main-container", e) == [renamed] + [renamed];
    assert r.containers[0] == Container("main-container", [], [renamed, renamed]);
    assert r.containers == [Container("main-container", [], [renamed, renamed])];
  }
}
