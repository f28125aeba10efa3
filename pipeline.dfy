/** The admission handler: identifies the StatefulSet replica a pod belongs
    to, then lets every registered handler parse the pod's annotations and,
    when it finds its configuration there, mutate the pod spec. */
module PodWebhook {
  import opened Wrappers
  import opened Kube
  import opened HandlerConfig
  import opened Annotations
  import opened Identity
  import Volumes
  import Env

  /** A registered handler: one of the two that expose a parser, or any other
      implementation of the handler interface, given by what its parser makes
      of the collected index and what its mutator makes of a spec. */
  datatype HandlerKind =
    | VolumeMountHandler
    | EnvMountHandler
    | OtherHandler(parse: (map<QualifiedName, string>, seq<QualifiedName>) -> Result<Config, DecodeError>,
                   mutate: (SpecState, int, Config) -> Result<SpecState, MutateError>)

  /** The handlers this repository defines with a parser. */
  predicate BuiltIn(h: HandlerKind) {
    h.VolumeMountHandler? || h.EnvMountHandler?
  }

  predicate AllBuiltIn(hs: seq<HandlerKind>) {
    forall i :: 0 <= i < |hs| ==> BuiltIn(hs[i])
  }

  /** The parts of a decoded pod the handler looks at. */
  datatype Pod = Pod(labels: map<string, string>, annotations: map<string, string>, spec: SpecState)

  /** Why a request is let through unchanged. */
  datatype Reason =
    | PodDecodeFailed
    | NotStatefulSetPod(identityError: IdentityError)
    | MutateFailed(mutateError: MutateError)
    | NoAnnotationParsed

  /** Every response allows the pod; only a completed run carries a patch,
      from the submitted pod to one with the mutated spec. */
  datatype Response = Allowed(reason: Reason) | Patched(mutated: SpecState)

  /** The JSON decoders of the two annotation payloads. */
  datatype Decoders = Decoders(volume: string -> Result<VolumePayload, DecodeError>,
                               env: string -> Result<EnvPayload, DecodeError>)

  /** The map iteration orders one handler visit observes: of the pod's
      annotations while collecting, and of the collected index while parsing. */
  datatype Visit = Visit(keys: seq<string>, names: seq<QualifiedName>)

  ghost predicate EnumeratesVisit(v: Visit, annotations: map<string, string>) {
    Enumerates(v.keys, annotations) && Enumerates(v.names, Collected(annotations, v.keys))
  }

  ghost predicate EnumeratesVisits(visits: seq<Visit>, annotations: map<string, string>) {
    forall i :: 0 <= i < |visits| ==> EnumeratesVisit(visits[i], annotations)
  }

  /** A handler's parser applied to a fresh collection of the annotations. */
  function ParseWith(h: HandlerKind, annotations: map<string, string>, v: Visit, dec: Decoders): (r: Result<Config, DecodeError>)
    requires EnumeratesVisit(v, annotations)
    ensures h.VolumeMountHandler? && r.Ok? ==> r.value.NilConfig? || r.value.VolumeMountConfig?
    ensures h.EnvMountHandler? && r.Ok? ==> r.value.NilConfig? || r.value.EnvMountConfig?
  {
    var index := Collected(annotations, v.keys);
    match h
    case VolumeMountHandler => Volumes.Parse(index, v.names, dec.volume)
    case EnvMountHandler => Env.Parse(index, v.names, dec.env)
    case OtherHandler(parse, _) => parse(index, v.names)
  }

  /** The handler's parser found its configuration: no error and not nil. */
  predicate Finds(h: HandlerKind, annotations: map<string, string>, v: Visit, dec: Decoders)
    requires EnumeratesVisit(v, annotations)
  {
    var r := ParseWith(h, annotations, v, dec);
    r.Ok? && !r.value.NilConfig?
  }

  /** Some handler of the list finds its configuration on its visit. */
  ghost predicate SomeHandlerFinds(hs: seq<HandlerKind>, visits: seq<Visit>, annotations: map<string, string>, dec: Decoders)
    requires |visits| == |hs| && EnumeratesVisits(visits, annotations)
  {
    exists i :: 0 <= i < |hs| && Finds(hs[i], annotations, visits[i], dec)
  }

  /** A handler's mutator, on the value of the spec. The two built-in
      mutators refuse exactly the configurations of another kind. */
  function MutateWith(h: HandlerKind, s: SpecState, ordinal: int, cfg: Config): (r: Result<SpecState, MutateError>)
    ensures h.VolumeMountHandler? ==> (r.Err? <==> !cfg.VolumeMountConfig?)
    ensures h.EnvMountHandler? ==> (r.Err? <==> !cfg.EnvMountConfig?)
  {
    match h
    case VolumeMountHandler => Volumes.MutateSpec(s, ordinal, cfg)
    case EnvMountHandler => Env.MutateSpec(s, ordinal, cfg)
    case OtherHandler(_, mutate) => mutate(s, ordinal, cfg)
  }

  /** The state of the handler loop: the spec so far and whether any handler
      found its configuration, or the error that stopped the loop. */
  datatype Progress = Running(spec: SpecState, parsed: bool) | Aborted(error: MutateError)

  /** One iteration: a parse error or a nil configuration skips the handler;
      otherwise the configuration counts as parsed and is applied. */
  function Step(p: Progress, h: HandlerKind, annotations: map<string, string>, v: Visit,
                ordinal: int, dec: Decoders): (r: Progress)
    requires EnumeratesVisit(v, annotations)
    ensures p.Aborted? ==> r == p
    ensures r.Running? ==> p.Running? && (p.parsed ==> r.parsed)
  {
    if p.Aborted? then p
    else
      match ParseWith(h, annotations, v, dec)
      case Err(_) => p
      case Ok(cfg) =>
        if cfg.NilConfig? then p
        else
          match MutateWith(h, p.spec, ordinal, cfg)
          case Ok(s) => Running(s, true)
          case Err(e) => Aborted(e)
  }

  /** The handler loop over `hs` from progress `p`, the i-th handler seeing
      the i-th visit's orders. */
  function Run(p: Progress, hs: seq<HandlerKind>, visits: seq<Visit>, annotations: map<string, string>,
               ordinal: int, dec: Decoders): (r: Progress)
    requires |visits| == |hs| && EnumeratesVisits(visits, annotations)
    ensures r.Running? ==> p.Running? && (p.parsed ==> r.parsed)
    decreases |hs|
  {
    if hs == [] then p
    else
      assert EnumeratesVisit(visits[0], annotations);
      assert forall i :: 0 <= i < |visits| - 1 ==> visits[1..][i] == visits[i + 1];
      Run(Step(p, hs[0], annotations, visits[0], ordinal, dec), hs[1..], visits[1..], annotations, ordinal, dec)
  }

  /** A handler that finds nothing leaves the progress as it is; a built-in
      one never stops the loop, and marks it parsed exactly when it finds its
      configuration. */
  lemma StepFinds(p: Progress, h: HandlerKind, annotations: map<string, string>, v: Visit,
                  ordinal: int, dec: Decoders)
    requires EnumeratesVisit(v, annotations) && p.Running?
    ensures !Finds(h, annotations, v, dec) ==> Step(p, h, annotations, v, ordinal, dec) == p
    ensures BuiltIn(h) ==>
              var r := Step(p, h, annotations, v, ordinal, dec);
              r.Running? && (r.parsed <==> p.parsed || Finds(h, annotations, v, dec))
  {
    var r := ParseWith(h, annotations, v, dec);
    if BuiltIn(h) && r.Ok? && !r.value.NilConfig? {
      assert MutateWith(h, p.spec, ordinal, r.value).Ok?;
    }
  }

  /** The response to an admission request whose pod decoded to `decoded`. */
  function Outcome(decoded: Result<Pod, DecodeError>, hs: seq<HandlerKind>, visits: seq<Visit>, dec: Decoders): (r: Response)
    requires decoded.Ok? ==> |visits| == |hs| && EnumeratesVisits(visits, decoded.value.annotations)
    ensures r.Patched? ==> decoded.Ok? && Extract(decoded.value.labels).err.None?
  {
    if decoded.Err? then Allowed(PodDecodeFailed)
    else
      var pod := decoded.value;
      var id := Extract(pod.labels);
      if id.err.Some? then Allowed(NotStatefulSetPod(id.err.value))
      else
        match Run(Running(pod.spec, false), hs, visits, pod.annotations, id.ordinal, dec)
        case Aborted(e) => Allowed(MutateFailed(e))
        case Running(s, parsed) => if parsed then Patched(s) else Allowed(NoAnnotationParsed)
  }

  // ---------------------------------------------------------------------------
  // The loop, in order of handlers

  lemma EnumeratesVisitsSuffix(visits: seq<Visit>, lo: int, annotations: map<string, string>)
    requires EnumeratesVisits(visits, annotations)
    requires 0 <= lo <= |visits|
    ensures EnumeratesVisits(visits[lo..], annotations)
  {
    forall i | 0 <= i < |visits| - lo ensures EnumeratesVisit(visits[lo..][i], annotations) {
      assert visits[lo..][i] == visits[lo + i];
    }
  }

  /** The loop over the handlers from the n-th on is one turn with the n-th
      followed by the loop over those after it. */
  lemma RunUnfold(p: Progress, hs: seq<HandlerKind>, visits: seq<Visit>, n: int,
                  annotations: map<string, string>, ordinal: int, dec: Decoders)
    requires |visits| == |hs| && EnumeratesVisits(visits, annotations)
    requires 0 <= n < |hs|
    ensures EnumeratesVisits(visits[n..], annotations) && EnumeratesVisits(visits[n + 1..], annotations)
    ensures EnumeratesVisit(visits[n], annotations)
    ensures Run(p, hs[n..], visits[n..], annotations, ordinal, dec)
            == Run(Step(p, hs[n], annotations, visits[n], ordinal, dec), hs[n + 1..], visits[n + 1..], annotations, ordinal, dec)
  {
    EnumeratesVisitsSuffix(visits, n, annotations);
    EnumeratesVisitsSuffix(visits, n + 1, annotations);
    assert hs[n..][1..] == hs[n + 1..] && visits[n..][1..] == visits[n + 1..];
  }

  /** Once a mutator has failed, the handlers after it change nothing. */
  lemma {:induction false} RunFromAborted(e: MutateError, hs: seq<HandlerKind>, visits: seq<Visit>,
                                          annotations: map<string, string>, ordinal: int, dec: Decoders)
    requires |visits| == |hs| && EnumeratesVisits(visits, annotations)
    ensures Run(Aborted(e), hs, visits, annotations, ordinal, dec) == Aborted(e)
    decreases |hs|
  {
    if hs != [] {
      RunUnfold(Aborted(e), hs, visits, 0, annotations, ordinal, dec);
      RunFromAborted(e, hs[1..], visits[1..], annotations, ordinal, dec);
      assert hs[0..] == hs && visits[0..] == visits;
    }
  }

  lemma EnumeratesVisitsAppend(v1: seq<Visit>, v2: seq<Visit>, annotations: map<string, string>)
    requires EnumeratesVisits(v1, annotations) && EnumeratesVisits(v2, annotations)
    ensures EnumeratesVisits(v1 + v2, annotations)
  {
    forall i | 0 <= i < |v1 + v2| ensures EnumeratesVisit((v1 + v2)[i], annotations) {
      if i < |v1| {
        assert (v1 + v2)[i] == v1[i];
      } else {
        assert (v1 + v2)[i] == v2[i - |v1|];
      }
    }
  }

  /** Running two lists of handlers one after the other is running their
      concatenation: handlers act in the order they were registered. */
  lemma {:induction false} RunAppend(p: Progress, hs1: seq<HandlerKind>, v1: seq<Visit>,
                                     hs2: seq<HandlerKind>, v2: seq<Visit>,
                                     annotations: map<string, string>, ordinal: int, dec: Decoders)
    requires |v1| == |hs1| && EnumeratesVisits(v1, annotations)
    requires |v2| == |hs2| && EnumeratesVisits(v2, annotations)
    ensures EnumeratesVisits(v1 + v2, annotations)
    ensures Run(p, hs1 + hs2, v1 + v2, annotations, ordinal, dec)
            == Run(Run(p, hs1, v1, annotations, ordinal, dec), hs2, v2, annotations, ordinal, dec)
    decreases |hs1|
  {
    EnumeratesVisitsAppend(v1, v2, annotations);
    if hs1 == [] {
      assert hs1 + hs2 == hs2 && v1 + v2 == v2;
    } else {
      var hs, vs := hs1 + hs2, v1 + v2;
      EnumeratesVisitsSuffix(v1, 1, annotations);
      assert hs[0] == hs1[0] && vs[0] == v1[0];
      assert hs[1..] == hs1[1..] + hs2 && vs[1..] == v1[1..] + v2;
      RunAppend(Step(p, hs1[0], annotations, v1[0], ordinal, dec), hs1[1..], v1[1..], hs2, v2, annotations, ordinal, dec);
    }
  }

  /** One turn of the handler loop: collect the annotations, parse them with
      the handler's parser and, unless that fails or finds nothing, mark the
      run as parsed and let the handler's mutator change the spec. */
  method ApplyHandler(h: HandlerKind, spec: PodSpec, annotations: map<string, string>, v: Visit,
                      ordinal: int, dec: Decoders, parsed: bool) returns (parsedAfter: bool, err: Option<MutateError>)
    requires EnumeratesVisit(v, annotations)
    modifies spec
    ensures var q := Step(Running(old(spec.State()), parsed), h, annotations, v, ordinal, dec);
            && (q.Running? ==> err.None? && q == Running(spec.State(), parsedAfter))
            && (q.Aborted? ==> err == Some(q.error))
  {
    var index := Collect(annotations, v.keys);
    var c: Result<Config, DecodeError>;
    match h {
      case VolumeMountHandler => c := Volumes.Parse(index, v.names, dec.volume);
      case EnvMountHandler => c := Env.Parse(index, v.names, dec.env);
      case OtherHandler(parse, _) => c := parse(index, v.names);
    }
    assert c == ParseWith(h, annotations, v, dec);
    if c.Err? || c.value.NilConfig? {
      return parsed, None;
    }
    err := MutateInPlace(h, spec, ordinal, c.value);
    parsedAfter := true;
  }

  /** A handler's `Mutate` on the spec it is handed a pointer to. */
  method MutateInPlace(h: HandlerKind, spec: PodSpec, ordinal: int, cfg: Config) returns (err: Option<MutateError>)
    modifies spec
    ensures var r := MutateWith(h, old(spec.State()), ordinal, cfg);
            && (r.Ok? ==> err.None? && spec.State() == r.value)
            && (r.Err? ==> err == Some(r.error))
  {
    match h {
      case VolumeMountHandler => err := Volumes.Mutate(spec, ordinal, cfg);
      case EnvMountHandler => err := Env.Mutate(spec, ordinal, cfg);
      case OtherHandler(_, mutate) =>
        var m := mutate(spec.State(), ordinal, cfg);
        if m.Ok? {
          spec.containers, spec.volumes := m.value.containers, m.value.volumes;
          err := None;
        } else {
          err := Some(m.error);
        }
    }
  }

  /** The handler loop, on the spec in place: every handler in turn, until a
      mutator fails. */
  method RunHandlers(hs: seq<HandlerKind>, spec: PodSpec, annotations: map<string, string>, visits: seq<Visit>,
                     ordinal: int, dec: Decoders) returns (parsed: bool, err: Option<MutateError>)
    requires |visits| == |hs| && EnumeratesVisits(visits, annotations)
    modifies spec
    ensures var r := Run(Running(old(spec.State()), false), hs, visits, annotations, ordinal, dec);
            && (r.Running? ==> err.None? && r == Running(spec.State(), parsed))
            && (r.Aborted? ==> err == Some(r.error))
  {
    parsed, err := false, None;
    ghost var total := Run(Running(spec.State(), false), hs, visits, annotations, ordinal, dec);
    assert hs[0..] == hs && visits[0..] == visits;
    for n := 0 to |hs|
      invariant err.None?
      invariant EnumeratesVisits(visits[n..], annotations)
      invariant Run(Running(spec.State(), parsed), hs[n..], visits[n..], annotations, ordinal, dec) == total
    {
      RunUnfold(Running(spec.State(), parsed), hs, visits, n, annotations, ordinal, dec);
      parsed, err := ApplyHandler(hs[n], spec, annotations, visits[n], ordinal, dec, parsed);
      if err.Some? {
        RunFromAborted(err.value, hs[n + 1..], visits[n + 1..], annotations, ordinal, dec);
        return;
      }
    }
    assert hs[|hs|..] == [] && visits[|visits|..] == [];
  }

  class PodArgumentor {
    var handlers: seq<HandlerKind>

    constructor ()
      ensures handlers == []
    {
      handlers := [];
    }

    /** Adds a handler after those already registered. */
    method Register(h: HandlerKind)
      modifies this
      ensures handlers == old(handlers) + [h]
    {
      handlers := handlers + [h];
    }

    /** Answers one admission request: the pod must decode and carry a
        StatefulSet identity; then every handler in turn collects the
        annotations afresh, parses them and, on finding its configuration,
        mutates the spec. The first mutator error ends the request without a
        patch, and so does a run in which no handler found anything. */
    method Handle(decoded: Result<Pod, DecodeError>, visits: seq<Visit>, dec: Decoders) returns (resp: Response)
      requires decoded.Ok? ==> |visits| == |handlers| && EnumeratesVisits(visits, decoded.value.annotations)
      ensures resp == Outcome(decoded, handlers, visits, dec)
    {
      if decoded.Err? {
        return Allowed(PodDecodeFailed);
      }
      var pod := decoded.value;
      var id := Extract(pod.labels);
      if id.err.Some? {
        return Allowed(NotStatefulSetPod(id.err.value));
      }
      var spec := new PodSpec(pod.spec);
      var parsed, err := RunHandlers(handlers, spec, pod.annotations, visits, id.ordinal, dec);
      OutcomeOfRun(pod, handlers, visits, dec);
      if err.Some? {
        return Allowed(MutateFailed(err.value));
      }
      if !parsed {
        return Allowed(NoAnnotationParsed);
      }
      return Patched(spec.State());
    }
  }

  // ---------------------------------------------------------------------------
  // Properties

  /** A request whose pod does not decode is let through unchanged. */
  lemma DecodeFailureAllows(e: DecodeError, hs: seq<HandlerKind>, visits: seq<Visit>, dec: Decoders)
    ensures Outcome(Err(e), hs, visits, dec) == Allowed(PodDecodeFailed)
  {
  }

  /** A pod without a StatefulSet identity is let through unchanged, and no
      handler is consulted: the response is the same whatever is registered. */
  lemma NonStatefulSetPodAllows(pod: Pod, hs1: seq<HandlerKind>, v1: seq<Visit>,
                                hs2: seq<HandlerKind>, v2: seq<Visit>, dec1: Decoders, dec2: Decoders)
    requires Extract(pod.labels).err.Some?
    requires |v1| == |hs1| && EnumeratesVisits(v1, pod.annotations)
    requires |v2| == |hs2| && EnumeratesVisits(v2, pod.annotations)
    ensures Outcome(Ok(pod), hs1, v1, dec1) == Outcome(Ok(pod), hs2, v2, dec2)
                                            == Allowed(NotStatefulSetPod(Extract(pod.labels).err.value))
  {
  }

  /** Each built-in handler only ever receives its own parser's
      configuration, so its mutator never fails: the loop runs to the end,
      and it ends parsed exactly when it started parsed or some handler found
      its configuration. */
  lemma {:induction false} RunCompletes(p: Progress, hs: seq<HandlerKind>, visits: seq<Visit>,
                                        annotations: map<string, string>, ordinal: int, dec: Decoders)
    requires |visits| == |hs| && EnumeratesVisits(visits, annotations)
    requires p.Running? && AllBuiltIn(hs)
    ensures var r := Run(p, hs, visits, annotations, ordinal, dec);
            r.Running? && (r.parsed <==> p.parsed || SomeHandlerFinds(hs, visits, annotations, dec))
    decreases |hs|
  {
    if hs != [] {
      RunUnfold(p, hs, visits, 0, annotations, ordinal, dec);
      assert hs[0..] == hs && visits[0..] == visits;
      var q := Step(p, hs[0], annotations, visits[0], ordinal, dec);
      StepFinds(p, hs[0], annotations, visits[0], ordinal, dec);
      assert forall i :: 0 <= i < |hs| - 1 ==> hs[1..][i] == hs[i + 1];
      RunCompletes(q, hs[1..], visits[1..], annotations, ordinal, dec);
      SomeHandlerFindsUncons(hs, visits, annotations, dec);
    }
  }

  /** Some handler of a non-empty list finds its configuration exactly when
      the first one does or some handler after it does. */
  lemma SomeHandlerFindsUncons(hs: seq<HandlerKind>, visits: seq<Visit>, annotations: map<string, string>, dec: Decoders)
    requires |visits| == |hs| && EnumeratesVisits(visits, annotations) && hs != []
    ensures EnumeratesVisits(visits[1..], annotations)
    ensures SomeHandlerFinds(hs, visits, annotations, dec)
            <==> Finds(hs[0], annotations, visits[0], dec) || SomeHandlerFinds(hs[1..], visits[1..], annotations, dec)
  {
    EnumeratesVisitsSuffix(visits, 1, annotations);
    var hs', vs' := hs[1..], visits[1..];
    if SomeHandlerFinds(hs, visits, annotations, dec) && !Finds(hs[0], annotations, visits[0], dec) {
      var i :| 0 <= i < |hs| && Finds(hs[i], annotations, visits[i], dec);
      assert hs'[i - 1] == hs[i] && vs'[i - 1] == visits[i];
    }
    if SomeHandlerFinds(hs', vs', annotations, dec) {
      var i :| 0 <= i < |hs'| && Finds(hs'[i], annotations, vs'[i], dec);
      assert hs'[i] == hs[i + 1] && vs'[i] == visits[i + 1];
    }
  }

  /** With the built-in handlers only, the mutate-failure response cannot occur. */
  lemma NeverMutateFailed(decoded: Result<Pod, DecodeError>, hs: seq<HandlerKind>, visits: seq<Visit>, dec: Decoders)
    requires decoded.Ok? ==> |visits| == |hs| && EnumeratesVisits(visits, decoded.value.annotations)
    requires AllBuiltIn(hs)
    ensures !Outcome(decoded, hs, visits, dec).Allowed? || !Outcome(decoded, hs, visits, dec).reason.MutateFailed?
  {
    if decoded.Ok? && Extract(decoded.value.labels).err.None? {
      var pod := decoded.value;
      RunCompletes(Running(pod.spec, false), hs, visits, pod.annotations, Extract(pod.labels).ordinal, dec);
    }
  }

  /** For a StatefulSet pod and the built-in handlers, the response carries a
      patch exactly when some handler finds its configuration; otherwise the
      pod is let through as unparsed. */
  lemma PatchedIffSomeHandlerFinds(pod: Pod, hs: seq<HandlerKind>, visits: seq<Visit>, dec: Decoders)
    requires Extract(pod.labels).err.None?
    requires |visits| == |hs| && EnumeratesVisits(visits, pod.annotations)
    requires AllBuiltIn(hs)
    ensures Outcome(Ok(pod), hs, visits, dec).Patched? <==> SomeHandlerFinds(hs, visits, pod.annotations, dec)
    ensures !SomeHandlerFinds(hs, visits, pod.annotations, dec) ==> Outcome(Ok(pod), hs, visits, dec) == Allowed(NoAnnotationParsed)
  {
    RunCompletes(Running(pod.spec, false), hs, visits, pod.annotations, Extract(pod.labels).ordinal, dec);
  }

  /** A mutator that fails ends the request without a patch: what the handlers
      before it changed is dropped and the handlers after it are not run. */
  lemma MutateFailureDropsPatch(pod: Pod, hs1: seq<HandlerKind>, v1: seq<Visit>, h: HandlerKind, v: Visit,
                                hs2: seq<HandlerKind>, v2: seq<Visit>, dec: Decoders, s: SpecState, parsed: bool, e: MutateError)
    requires Extract(pod.labels).err.None?
    requires |v1| == |hs1| && EnumeratesVisits(v1, pod.annotations)
    requires |v2| == |hs2| && EnumeratesVisits(v2, pod.annotations)
    requires EnumeratesVisit(v, pod.annotations)
    requires Run(Running(pod.spec, false), hs1, v1, pod.annotations, Extract(pod.labels).ordinal, dec) == Running(s, parsed)
    requires Finds(h, pod.annotations, v, dec)
    requires MutateWith(h, s, Extract(pod.labels).ordinal, ParseWith(h, pod.annotations, v, dec).value) == Err(e)
    ensures EnumeratesVisits(v1 + [v] + v2, pod.annotations)
    ensures Outcome(Ok(pod), hs1 + [h] + hs2, v1 + [v] + v2, dec) == Allowed(MutateFailed(e))
  {
    var ordinal := Extract(pod.labels).ordinal;
    RunSingle(Running(s, parsed), h, v, pod.annotations, ordinal, dec);
    EnumeratesVisitsAppend(v1, [v], pod.annotations);
    RunAppend(Running(pod.spec, false), hs1, v1, [h], [v], pod.annotations, ordinal, dec);
    RunAppend(Running(pod.spec, false), hs1 + [h], v1 + [v], hs2, v2, pod.annotations, ordinal, dec);
    RunFromAborted(e, hs2, v2, pod.annotations, ordinal, dec);
  }

  /** Handlers whose parse fails or finds nothing are skipped: parse errors
      are swallowed rather than reported. */
  lemma {:induction false} RunSkipsUnparsed(p: Progress, hs: seq<HandlerKind>, visits: seq<Visit>,
                                            annotations: map<string, string>, ordinal: int, dec: Decoders)
    requires |visits| == |hs| && EnumeratesVisits(visits, annotations)
    requires forall i :: 0 <= i < |hs| ==>
               var r := ParseWith(hs[i], annotations, visits[i], dec); r.Err? || r.value.NilConfig?
    ensures Run(p, hs, visits, annotations, ordinal, dec) == p
    decreases |hs|
  {
    if hs != [] {
      RunUnfold(p, hs, visits, 0, annotations, ordinal, dec);
      assert hs[0..] == hs && visits[0..] == visits;
      var r := ParseWith(hs[0], annotations, visits[0], dec);
      assert r.Err? || r.value.NilConfig?;
      forall i | 0 <= i < |hs| - 1
        ensures var r := ParseWith(hs[1..][i], annotations, visits[1..][i], dec); r.Err? || r.value.NilConfig?
      {
        assert hs[1..][i] == hs[i + 1] && visits[1..][i] == visits[i + 1];
      }
      RunSkipsUnparsed(p, hs[1..], visits[1..], annotations, ordinal, dec);
    }
  }

  /** A pod with no annotation under the argument prefix gets no patch. */
  lemma NoArgumentAnnotations(pod: Pod, hs: seq<HandlerKind>, visits: seq<Visit>, dec: Decoders)
    requires Extract(pod.labels).err.None?
    requires forall k :: k in pod.annotations ==> !IsArgumentKey(k)
    requires |visits| == |hs| && EnumeratesVisits(visits, pod.annotations)
    requires AllBuiltIn(hs)
    ensures Outcome(Ok(pod), hs, visits, dec) == Allowed(NoAnnotationParsed)
  {
    forall i | 0 <= i < |hs|
      ensures ParseWith(hs[i], pod.annotations, visits[i], dec) == Ok(NilConfig)
    {
      ParseWithoutArguments(hs[i], pod.annotations, visits[i], dec);
    }
    RunSkipsUnparsed(Running(pod.spec, false), hs, visits, pod.annotations, Extract(pod.labels).ordinal, dec);
    OutcomeOfRun(pod, hs, visits, dec);
  }

  /** Without an annotation under the prefix the index is empty, and a
      built-in parser finds nothing in it. */
  lemma ParseWithoutArguments(h: HandlerKind, annotations: map<string, string>, v: Visit, dec: Decoders)
    requires BuiltIn(h) && EnumeratesVisit(v, annotations)
    requires forall k :: k in annotations ==> !IsArgumentKey(k)
    ensures ParseWith(h, annotations, v, dec) == Ok(NilConfig)
  {
    var index := Collected(annotations, v.keys);
    forall q | q in index ensures false {
      CollectedKeys(annotations, v.keys, q);
    }
  }

  /** The loop over one handler is one turn. */
  lemma RunSingle(p: Progress, h: HandlerKind, v: Visit, annotations: map<string, string>, ordinal: int, dec: Decoders)
    requires EnumeratesVisit(v, annotations)
    ensures EnumeratesVisits([v], annotations)
    ensures Run(p, [h], [v], annotations, ordinal, dec) == Step(p, h, annotations, v, ordinal, dec)
  {
    assert [h][1..] == [] && [v][1..] == [];
  }

  /** A built-in mutator handed its own kind of configuration whose qualifier
      excludes the replica returns the spec unchanged. */
  lemma MutateWithExcluded(h: HandlerKind, s: SpecState, ordinal: int, cfg: Config)
    requires h.VolumeMountHandler? ==> cfg.VolumeMountConfig?
    requires h.EnvMountHandler? ==> cfg.EnvMountConfig?
    requires BuiltIn(h) && !cfg.NilConfig? && !Qualifies(ordinal, cfg.qualifier)
    ensures MutateWith(h, s, ordinal, cfg) == Ok(s)
  {
  }

  /** A configuration whose qualifier excludes the replica still counts as
      parsed: the response carries a patch, of an unchanged spec. */
  lemma ExcludedConfigStillPatches(pod: Pod, h: HandlerKind, v: Visit, dec: Decoders)
    requires Extract(pod.labels).err.None? && BuiltIn(h)
    requires EnumeratesVisit(v, pod.annotations)
    requires ParseWith(h, pod.annotations, v, dec).Ok?
    requires var cfg := ParseWith(h, pod.annotations, v, dec).value;
             !cfg.NilConfig? && !Qualifies(Extract(pod.labels).ordinal, cfg.qualifier)
    ensures Outcome(Ok(pod), [h], [v], dec) == Patched(pod.spec)
  {
    var ordinal := Extract(pod.labels).ordinal;
    RunExcluded(pod.spec, h, v, pod.annotations, ordinal, dec);
    OutcomeOfRun(pod, [h], [v], dec);
  }

  /** The run over one built-in handler whose configuration excludes the
      replica ends parsed, with the spec unchanged. */
  lemma RunExcluded(s: SpecState, h: HandlerKind, v: Visit, annotations: map<string, string>, ordinal: int, dec: Decoders)
    requires BuiltIn(h) && EnumeratesVisit(v, annotations)
    requires ParseWith(h, annotations, v, dec).Ok?
    requires var cfg := ParseWith(h, annotations, v, dec).value;
             !cfg.NilConfig? && !Qualifies(ordinal, cfg.qualifier)
    ensures EnumeratesVisits([v], annotations)
    ensures Run(Running(s, false), [h], [v], annotations, ordinal, dec) == Running(s, true)
  {
    MutateWithExcluded(h, s, ordinal, ParseWith(h, annotations, v, dec).value);
    RunSingle(Running(s, false), h, v, annotations, ordinal, dec);
  }

  /** For a StatefulSet pod, the response is read off the run's final progress. */
  lemma OutcomeOfRun(pod: Pod, hs: seq<HandlerKind>, visits: seq<Visit>, dec: Decoders)
    requires Extract(pod.labels).err.None?
    requires |visits| == |hs| && EnumeratesVisits(visits, pod.annotations)
    ensures var r := Run(Running(pod.spec, false), hs, visits, pod.annotations, Extract(pod.labels).ordinal, dec);
            && (r.Aborted? ==> Outcome(Ok(pod), hs, visits, dec) == Allowed(MutateFailed(r.error)))
            && (r.Running? && r.parsed ==> Outcome(Ok(pod), hs, visits, dec) == Patched(r.spec))
            && (r.Running? && !r.parsed ==> Outcome(Ok(pod), hs, visits, dec) == Allowed(NoAnnotationParsed))
  {
  }

  /** With both handlers registered, a completed run applies the volume
      mutator first and the env mutator to its result. */
  lemma RunBothHandlers(s: SpecState, vv: Visit, ve: Visit, annotations: map<string, string>,
                        ordinal: int, dec: Decoders, cv: Config, ce: Config)
    requires EnumeratesVisit(vv, annotations) && EnumeratesVisit(ve, annotations)
    requires ParseWith(VolumeMountHandler, annotations, vv, dec) == Ok(cv) && !cv.NilConfig?
    requires ParseWith(EnvMountHandler, annotations, ve, dec) == Ok(ce) && !ce.NilConfig?
    ensures EnumeratesVisits([vv, ve], annotations)
    ensures cv.VolumeMountConfig? && ce.EnvMountConfig?
    ensures Run(Running(s, false), [VolumeMountHandler, EnvMountHandler], [vv, ve], annotations, ordinal, dec)
            == Running(Env.MutateSpec(Volumes.MutateSpec(s, ordinal, cv).value, ordinal, ce).value, true)
  {
    var hs, vs := [VolumeMountHandler, EnvMountHandler], [vv, ve];
    assert hs == [VolumeMountHandler] + [EnvMountHandler] && vs == [vv] + [ve];
    RunSingle(Running(s, false), VolumeMountHandler, vv, annotations, ordinal, dec);
    var q := Step(Running(s, false), VolumeMountHandler, annotations, vv, ordinal, dec);
    RunSingle(q, EnvMountHandler, ve, annotations, ordinal, dec);
    RunAppend(Running(s, false), [VolumeMountHandler], [vv], [EnvMountHandler], [ve], annotations, ordinal, dec);
  }
}
