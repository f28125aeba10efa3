/** The config-mount handler: a parser for `mount-configmap` annotations and a
    mutator that accepts the parsed configuration and changes nothing. */
module ConfigMap {
  import opened Wrappers
  import opened Kube
  import opened HandlerConfig
  import opened Annotations

  const MOUNT_CONFIG_MAPS: string := "mount-configmap"

  /** The parser: the first entry named `mount-configmap` in the enumeration
      decides; its value is decoded into volumes and containers and carried
      with the entry's qualifier. No such entry gives the nil configuration. */
  function Parse(annotations: map<QualifiedName, string>, order: seq<QualifiedName>,
                 decode: string -> Result<ConfigMapPayload, DecodeError>): (r: Result<Config, DecodeError>)
    requires Enumerates(order, annotations)
    ensures r.Ok? ==> r.value.NilConfig? || r.value.ConfigMapMountConfig?
    ensures r == Ok(NilConfig) <==> forall k :: k in annotations ==> k.name != MOUNT_CONFIG_MAPS
    ensures r.Ok? && r.value.ConfigMapMountConfig? ==>
              exists k :: k in annotations && k.name == MOUNT_CONFIG_MAPS && k.qualifier == r.value.qualifier
                          && decode(annotations[k]) == Ok(r.value.configMapCfg)
    ensures r.Err? ==>
              exists k :: k in annotations && k.name == MOUNT_CONFIG_MAPS && decode(annotations[k]) == Err(r.error)
  {
    match FindByName(order, MOUNT_CONFIG_MAPS)
    case None => Ok(NilConfig)
    case Some(k) =>
      match decode(annotations[k])
      case Ok(payload) => Ok(ConfigMapMountConfig(k.qualifier, payload))
      case Err(e) => Err(e)
  }

  /** With a single `mount-configmap` entry the result no longer depends on the
      enumeration order. */
  lemma ParseSingle(annotations: map<QualifiedName, string>, order: seq<QualifiedName>,
                    decode: string -> Result<ConfigMapPayload, DecodeError>, k: QualifiedName)
    requires Enumerates(order, annotations)
    requires k in annotations && k.name == MOUNT_CONFIG_MAPS
    requires forall k' :: k' in annotations && k'.name == MOUNT_CONFIG_MAPS ==> k' == k
    ensures decode(annotations[k]).Ok? ==>
              Parse(annotations, order, decode) == Ok(ConfigMapMountConfig(k.qualifier, decode(annotations[k]).value))
    ensures decode(annotations[k]).Err? ==>
              Parse(annotations, order, decode) == Err(decode(annotations[k]).error)
  {
    var found := FindByName(order, MOUNT_CONFIG_MAPS);
    assert k in order;
    assert found.Some? && found.value == k;
  }

  /** The index of the two annotations `mount-configmap` and
      `mount-configmap_1-2` holds two entries of that name; whichever the
      enumeration reaches first is the one parsed, and the other is ignored. */
  lemma ParseFirstOfTwo(value: string, order: seq<QualifiedName>,
                        decode: string -> Result<ConfigMapPayload, DecodeError>)
    requires decode(value).Ok?
    requires order == [QualifiedName("1-2", MOUNT_CONFIG_MAPS), QualifiedName("", MOUNT_CONFIG_MAPS)]
    ensures var annotations := map[QualifiedName("", MOUNT_CONFIG_MAPS) := value, QualifiedName("1-2", MOUNT_CONFIG_MAPS) := value];
            Parse(annotations, order, decode) == Ok(ConfigMapMountConfig("1-2", decode(value).value))
  {
  }

  /** The handler's `Mutate`: a type assertion on the configuration and
      nothing else. The assertion panics on a configuration of another kind,
      which is therefore excluded by the precondition. */
  method Mutate(spec: PodSpec, ordinal: int, cfg: Config) returns (err: Option<MutateError>)
    requires cfg.ConfigMapMountConfig?
    ensures err.None?
  {
    return None;
  }
}
