/** What a handler's parser hands to its mutator. In the source this is an
    untyped `interface{}` that each mutator type-asserts; here it is a tagged
    union with one variant per concrete configuration type, plus nil. */
module HandlerConfig {
  import opened Wrappers
  import opened Strings
  import opened Kube

  /** The JSON payload of a `mount-volume` annotation. */
  datatype VolumePayload = VolumePayload(volumes: seq<Volume>, containers: seq<Container>)

  /** The JSON payload of a `mount-env` annotation. */
  datatype EnvPayload = EnvPayload(envFrom: seq<EnvFromSource>, containers: seq<Container>)

  /** The JSON payload of a `mount-configmap` annotation. */
  datatype ConfigMapPayload = ConfigMapPayload(volumes: seq<Volume>, containers: seq<Container>)

  datatype Config =
    | NilConfig
    | VolumeMountConfig(qualifier: string, volumeCfg: VolumePayload)
    | EnvMountConfig(qualifier: string, envCfg: EnvPayload)
    | ConfigMapMountConfig(qualifier: string, configMapCfg: ConfigMapPayload)

  /** An annotation value that is not well-formed JSON for the payload shape. */
  datatype DecodeError = DecodeError(message: string)

  /** A mutator handed a configuration of another handler, or nil. */
  datatype MutateError = UnexpectedConfigType

  /** `"-" + strconv.Itoa(ordinal)`: what both renaming handlers append to a
      ConfigMap or Secret reference so that each replica gets its own object. */
  function OrdinalSuffix(ordinal: int): (r: string)
    ensures |r| >= 2 && r[0] == '-'
    ensures Atoi(r[1..]) == Some(ordinal)
    ensures ordinal >= 0 ==> IsCanonical(r[1..]) && DigitsValue(r[1..]) == ordinal
    ensures ordinal < 0 ==> |r| >= 3 && r[1] == '-' && IsCanonical(r[2..]) && DigitsValue(r[2..]) == -ordinal
  {
    AtoiItoa(ordinal);
    assert ordinal < 0 ==> ("-" + Itoa(ordinal))[2..] == Itoa(ordinal)[1..];
    assert ("-" + Itoa(ordinal))[1..] == Itoa(ordinal);
    "-" + Itoa(ordinal)
  }

  /** The renaming can be undone: a reference suffixed with a replica ordinal
      splits at its last '-' into the original reference and a numeral that
      Atoi reads back as the ordinal. */
  lemma OrdinalSuffixSplit(ref: string, ordinal: nat)
    ensures var r := ref + OrdinalSuffix(ordinal);
            && LastIndexOf(r, '-') == |ref|
            && r[..|ref|] == ref
            && Atoi(r[|ref| + 1..]) == Some(ordinal)
  {
    var digits := NatToString(ordinal);
    var r := ref + OrdinalSuffix(ordinal);
    assert r == ref + "-" + digits;
    DigitsHaveNoHyphen(digits);
    LastIndexOfBefore(ref, '-', digits);
    assert r[..|ref|] == ref && r[|ref| + 1..] == digits;
    NatToStringValue(ordinal);
    DigitsAtoi(digits);
  }
}
