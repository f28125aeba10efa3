# StatefulSet pod argumentor, modelled in Dafny

The argumentor is a Kubernetes mutating admission webhook. It gives each replica of a
StatefulSet its own configuration. A pod's annotations under the `ssarg.io/` prefix
carry JSON payloads. Each payload is addressed to a handler by name and may carry a
qualifier that restricts it to a range of replica ordinals. The engine works in stages:

- **Collector**: turns the annotations into an index keyed by qualified names. Each key is
  split on its last `_` into a name and a qualifier.
- **Qualifier**: decides whether a replica ordinal is in the scope of a qualifier. The forms
  are `""`, `N-M`, `N`, `N-` and `-N`.
- **Identity**: reads the replica's StatefulSet name and ordinal from the
  `statefulset.kubernetes.io/pod-name` label.
- **Handlers**: each is a parser plus a mutator. The volume-mount handler appends volumes
  whose ConfigMap and Secret references get the suffix `-<ordinal>`, and appends mounts to
  containers of the same name. The env-mount handler appends renamed `EnvFrom` sources the
  same way. The config-mount handler parses its annotation and changes nothing.
- **Webhook**: `PodArgumentor.Handle` runs every registered handler in turn over the pod
  spec. It answers with a patch only when every mutation succeeded and at least one
  handler found its configuration.

Each core source file has its own module (`Annotations`, `Identity`, `Volumes`, `Env`,
`ConfigMap`, `PodWebhook`). Four supporting modules hold what those files share: `Wrappers`,
`Strings`, `Kube` and `HandlerConfig`. `Strings` models the parts of Go's `strings` and
`strconv` packages that the engine calls: `strings.LastIndex`, `strings.Split`,
`strings.HasPrefix`, `strings.TrimPrefix`, `strconv.Atoi` and `strconv.Itoa`. Their
departures from Go (no `Atoi` overflow error, character rather than byte indices) are
listed under "Left out".

Go map iteration order is left open. Every loop over a map takes a caller-chosen
enumeration, `order`, that lists the map's keys. Every property below holds for every
such enumeration.

The pod spec is a `class` (`Kube.PodSpec`) because handlers update it in place. Each
in-place mutator is proved equal to a pure function of the spec's value (`MutateSpec`),
and the properties are proved about that function. The webhook's loop is proved equal to
`Run`, a fold of `Step` over the registered handlers.

Files:
- `wrappers.dfy`: `Option` and `Result`.
- `strings.dfy`: the string and number functions listed above.
- `annotations.dfy`: `internal/annotation/annotations.go`.
- `kube.dfy`: the Pod API fields the engine touches.
- `handler_config.dfy`: the configurations that parsers hand to mutators.
- `identity.dfy`: `internal/ss_identifier.go`.
- `volumes.dfy`, `env.dfy`, `configmap.dfy`: the three handlers.
- `pipeline.dfy`: `internal/pod_webhook.go`.

Where the code departs from the intended design, the model follows the code:

- The identity pattern `.+-\d+` is not anchored, and the `Atoi` error is discarded. A
  label such as `a-1x` or `a-1-x` is accepted with ordinal 0
  (`Identity.ExtractNonNumericTail`).
- Parse errors are swallowed. The handler is skipped and the loop goes on
  (`PodWebhook.RunSkipsUnparsed`).
- A mutator error ends the request with an allowed response and no patch. Mutations made
  before the error are dropped, and later handlers are not run
  (`PodWebhook.MutateFailureDropsPatch`).
- The annotations are collected afresh for every handler, so each handler visit has its
  own enumeration orders (`PodWebhook.Visit`).
- The config-mount handler exposes `NewParser` rather than `GetParser`, so it cannot be
  registered. `PodWebhook.HandlerKind` has the volume and env handlers, plus
  `OtherHandler`, which stands for any other implementation of the handler interface and
  is given by its parse and mutate functions. The two built-in mutators never fail on
  their own parser's configuration (`PodWebhook.NeverMutateFailed`). Only an
  `OtherHandler` can reach the mutate-failure path.
- A configuration whose qualifier excludes the replica still counts as parsed. The
  response is a patch of the unchanged spec (`PodWebhook.ExcludedConfigStillPatches`).
- Two keys that stand for the same qualified name collide, for example `ssarg.io/a` and
  `ssarg.io/a_`. The index then holds one of their values.
- When the index holds two entries with a handler's name, the parser takes whichever the
  enumeration reaches first (`ConfigMap.ParseFirstOfTwo`).
- The env-mount handler appends the whole top-level `EnvFrom` list, once per
  configuration container of the matching name. The configuration container's own
  `EnvFrom` plays no part.

## Model

| member | source | states |
|---|---|---|
| Strings.LastIndexOf | internal/annotation/annotations.go:55 | `strings.LastIndex` for one character: -1 exactly when the character is absent; otherwise the position holds it and no later position does |
| Strings.SplitAtLastIndex | internal/ss_identifier.go:37-39 | cutting at the last occurrence gives head, the character and a tail free of it, which concatenate back to the input |
| Strings.LastIndexOfBefore | internal/ss_identifier.go:37 | in `head + c + tail` with no `c` in `tail`, the last `c` is at position `|head|` |
| Strings.TrimPrefix | internal/annotation/annotations.go:54 | with the prefix present, prefix followed by the result is the input; without it, the input is returned unchanged |
| Strings.HasPrefix | internal/annotation/annotations.go:52 | true iff the prefix is an initial segment of the string |
| Strings.Split | internal/annotation/annotations.go:81 | `strings.Split` on one character: at least one piece, no piece holds the separator, and joining the pieces with it gives back the input |
| Strings.SplitJoin | internal/annotation/annotations.go:81 | splitting a join of separator-free pieces gives back the pieces |
| Strings.IndexOf | internal/annotation/annotations.go:81 | first position of a character, or -1 exactly when absent |
| Strings.IndexOfAfter | internal/annotation/annotations.go:81 | in `head + sep + tail` with no separator in `head`, the first separator is at `|head|` |
| Strings.NatToString | internal/annotation/volumes/mount.go:46 | the decimal text of a natural number is a numeral without leading zeros, and it is `0` exactly for 0 |
| Strings.NatToStringValue | internal/annotation/volumes/mount.go:46 | the digits written for `n` read back as `n` |
| Strings.Itoa | internal/annotation/volumes/mount.go:46 | a non-negative integer is written as the numeral of its value without leading zeros; a negative one as `-` followed by that numeral of its magnitude (unique by CanonicalUnique) |
| Strings.CanonicalUnique | internal/annotation/volumes/mount.go:46 | a value has exactly one numeral without leading zeros, the one NatToString writes, so the text of every suffix is fixed |
| Strings.LeadingDigitPositive | internal/annotation/volumes/mount.go:46 | a numeral whose first digit is not `0` is worth at least 1 |
| Strings.Atoi | internal/ss_identifier.go:38 | succeeds iff the text is a numeral or a sign followed by a numeral; a numeral or `+N` reads as its value and `-N` as its negation; everything else is a syntax error |
| Strings.AtoiItoa | internal/annotation/volumes/mount.go:46 | round trip: `Atoi(Itoa(i)) == Some(i)` for every integer |
| Strings.AtoiOrZero | internal/ss_identifier.go:38 | with the error discarded, text that is not a (signed) numeral reads as 0, an unsigned or `+`-signed numeral as its value and a `-`-signed one as its negation |
| Strings.DigitsAtoi | internal/annotation/annotations.go:83 | a numeral reads as its value, with or without the discarded error |
| Strings.AtoiOrZeroNonNegative | internal/ss_identifier.go:38 | text without a '-' never reads as a negative number, the discarded error included |
| Strings.DigitsHaveNoHyphen | internal/annotation/annotations.go:81-82 | a numeral contains no '-' |
| Annotations.Qualify | internal/annotation/annotations.go:54-64 | without `_` the whole remainder is the name and the qualifier is empty; otherwise name, `_` and qualifier rebuild the remainder; the qualifier never holds `_` |
| Annotations.QualifyJoin | internal/annotation/annotations.go:55-64 | round trip: a name (which may hold `_`) and a `_`-free qualifier, joined with `_`, read back as that pair |
| Annotations.QualifyCollision | internal/annotation/annotations.go:55-64 | `a_` and `a` both give the unqualified name `a` |
| Annotations.KeyName | internal/annotation/annotations.go:52-64 | the qualifier holds no `_`; a remainder with `_` is `name _ qualifier` after the prefix, one without is the name with an empty qualifier |
| Annotations.Collected | internal/annotation/annotations.go:48-71 | the index the loop should build: no key has a qualifier holding `_`, and every value is the value of some annotation |
| Annotations.Collect | internal/annotation/annotations.go:48-71 | the loop builds exactly the index `Collected` for the given enumeration, each later write to a name replacing the earlier one |
| Annotations.CollectedKeys | internal/annotation/annotations.go:50-68 | a qualified name is in the index iff some key under `ssarg.io/` stands for it; all other keys are skipped |
| Annotations.CollectedValue | internal/annotation/annotations.go:50-65 | every entry holds the value of some prefixed key that stands for its name; on a collision, one of the colliding values |
| Annotations.CollectedUnique | internal/annotation/annotations.go:50-65 | a key whose qualified name no other key shares has its value in the index, whatever the order |
| Annotations.KeyNameOf | internal/annotation/annotations.go:52-54 | `ssarg.io/` followed by `n` is an argument key standing for the qualified name of `n` |
| Annotations.KeyNameUnqualified | internal/annotation/annotations.go:55-58 | `ssarg.io/<name>` with no `_` in the name stands for the name with an empty qualifier |
| Annotations.KeyNameQualified | internal/annotation/annotations.go:59-64 | `ssarg.io/<name>_<q>` with no `_` in `q` stands for name `<name>` with qualifier `q` |
| Annotations.CollectedKeysWithin | internal/annotation/annotations.go:48-71 | the index holds no qualified name that no annotation key stands for |
| Annotations.CollectedTwo | internal/annotation/annotations.go:48-71 | two prefixed keys with different qualified names give an index of exactly those two entries, each with its key's value, whatever the order |
| Annotations.CollectNameAndQualified | internal/annotation/annotations.go:48-71 | `ssarg.io/<name>` and `ssarg.io/<name>_<q>` (q non-empty) give exactly the unqualified and the qualified entry of that name, each with its own value |
| Annotations.FindByName | internal/annotation/volumes/mount.go:71-72 | the parsers' early-return search: none iff no key in the order has the name; otherwise a key with the name that no earlier key in the order shares it with, i.e. the first |
| Annotations.Qualifies | internal/annotation/annotations.go:75-104 | the empty qualifier admits every ordinal |
| Annotations.RangeBounds | internal/annotation/annotations.go:81-84 | a qualifier matching `^\d+-\d+$` splits on '-' into exactly two numerals |
| Annotations.UpperBounds | internal/annotation/annotations.go:98-99 | a qualifier matching `^-\d+$` splits into an empty piece and the numeral, so `bounds[1]` is the bound |
| Annotations.RangeShape | internal/annotation/annotations.go:81-82 | numeral, '-', numeral matches the range pattern and splits into the two numerals |
| Annotations.QualifiesRange | internal/annotation/annotations.go:82-87 | `N-M` admits an ordinal iff `N <= ordinal <= M`, so none when `N > M` |
| Annotations.QualifiesExact | internal/annotation/annotations.go:88-92 | `N` admits an ordinal iff it equals `N` |
| Annotations.LowerBoundShape | internal/annotation/annotations.go:82-94 | `N-` matches neither the range nor the exact pattern, matches `^\d+-$`, and splits into `N` and an empty piece |
| Annotations.QualifiesLowerBound | internal/annotation/annotations.go:93-97 | `N-` admits an ordinal iff it is at least `N` |
| Annotations.QualifiesUpperBound | internal/annotation/annotations.go:98-102 | `-N` admits an ordinal iff it is at most `N` |
| Annotations.QualifiesNoForm | internal/annotation/annotations.go:103 | a non-empty qualifier of none of the four forms admits nothing and is never an error |
| Annotations.QualifiesStrayCharacter | internal/annotation/annotations.go:82-103 | a character other than a digit or '-' (as in `a` or `not-a-qualifier`) puts every ordinal out of scope |
| Annotations.QualifiesTwoHyphens | internal/annotation/annotations.go:82-103 | two '-' (as in `1-2-3`) put every ordinal out of scope |
| Annotations.QualifierExamplesClosed | internal/annotation/annotations.go:75-92 | `""` and `5` admit 5, `5` rejects 4; `1-10` admits 5 and rejects 11; `1-2` rejects 0 |
| Annotations.QualifierExamplesOpen | internal/annotation/annotations.go:93-102 | `5-` admits 5 and rejects 4; `-5` admits 5 and rejects 6 |
| Annotations.QualifierExamplesMalformed | internal/annotation/annotations.go:82-103 | `not-a-qualifier`, `a`, `1-2-3` and the inverted `2-1` admit no ordinal |
| Identity.SplitAtLastHyphen | internal/ss_identifier.go:34-38 | an accepted label has its last '-' strictly inside it: the name is non-empty, and the tail has no '-' and never reads as negative |
| Identity.HasHyphenDigit | internal/ss_identifier.go:34 | the unanchored pattern `.+-\d+`: a matching label has at least three characters and a `-` |
| Identity.HasHyphenDigitUnanchored | internal/ss_identifier.go:34 | text added before or after a matching label keeps it matching: the pattern is not anchored |
| Identity.Extract | internal/ss_identifier.go:27-40 | a missing label gives the missing-label error and a label without `.+-\d+` the unexpected-value error, both as `("", -1)`; on success label = name + "-" + tail, the tail has no '-' and the ordinal is the tail's `Atoi` value (0 on a syntax error), never negative |
| Identity.ExtractWellFormed | internal/ss_identifier.go:37-39 | `<name>-<digits>` gives `(name, value of digits, nil)`, even when the name itself holds '-' |
| Identity.ExtractNonNumericTail | internal/ss_identifier.go:34-39 | a label `name-tail` that matches the pattern somewhere, with no `-` in `tail` and `tail` not a (signed) numeral, gives `(name, 0, nil)`, not an error |
| Identity.ExtractExamples | internal/ss_identifier.go:27-40 | no label gives the missing-label error; `wrong-label` gives the unexpected-value error; `dummy-ss-0` gives `("dummy-ss", 0)` |
| Identity.ExtractDigitLedTailExample | internal/ss_identifier.go:34-39 | `a-1x` gives `("a", 0)` |
| Identity.ExtractHyphenInNameExample | internal/ss_identifier.go:34-39 | `a-1-x` matches at `-1` and gives `("a-1", 0)` |
| Identity.ExtractSignedTail | internal/ss_identifier.go:34-39 | an accepted label whose tail is `+` and digits gives the name before the last '-' and the digits' value, with no error |
| Identity.ExtractSignedTailExample | internal/ss_identifier.go:34-39 | `a-1-+5` gives `("a-1", 5)`: a signed tail reads as its value |
| HandlerConfig.OrdinalSuffix | internal/annotation/volumes/mount.go:46 | `-` followed by the numeral of the ordinal without leading zeros (or `-` and the magnitude's numeral for a negative ordinal), which `Atoi` reads back as the ordinal |
| HandlerConfig.OrdinalSuffixSplit | internal/annotation/volumes/mount.go:45-50 | the renaming can be undone: a reference with `-<ordinal>` appended splits at its last '-' into the original reference and a numeral that reads back as the ordinal |
| Volumes.Parse | internal/annotation/volumes/mount.go:70-85 | nil config iff no entry is named `mount-volume`; otherwise a volume config with the qualifier and decoded payload of such an entry, or that entry's decode error |
| Volumes.ParseSingle | internal/annotation/volumes/mount.go:70-85 | with a single `mount-volume` entry, the result is that entry's config or decode error, whatever the order |
| Volumes.RenameVolume | internal/annotation/volumes/mount.go:44-51 | renaming keeps the volume's name, appends `-<ordinal>` to a present ConfigMap or Secret reference and leaves an absent one absent |
| Volumes.RenamedVolumesAsSuffixed | internal/annotation/volumes/mount.go:44-51 | every renamed volume is its original with the ordinal suffix on each reference, position by position |
| Volumes.MutateSpec | internal/annotation/volumes/mount.go:38-64 | error iff the config is not a volume config; an excluding qualifier leaves the spec as it is; otherwise container count, order, names and env sources are kept, and old mounts and volumes are prefixes of the new ones |
| Volumes.RenameAll | internal/annotation/volumes/mount.go:44-51 | the renaming loop equals the renamed list, and every volume's ConfigMap and Secret reference gains the ordinal suffix while absent ones stay absent |
| Volumes.MountsForOne | internal/annotation/volumes/mount.go:56-57 | one configuration container adds its mounts to a container of its name and nothing to others |
| Volumes.MountsForSnoc | internal/annotation/volumes/mount.go:53-59 | one more configuration container adds its own contribution after the earlier ones |
| Volumes.WithMountsSnoc | internal/annotation/volumes/mount.go:53-59 | one outer iteration applied after the earlier ones is the nested loop over one more configuration container |
| Volumes.AppendSource | internal/annotation/volumes/mount.go:55-59 | the inner loop appends the source's mounts to every container of its name and leaves the volumes alone |
| Volumes.AppendToMatching | internal/annotation/volumes/mount.go:53-59 | the nested loop gives every container its old mounts followed by the mounts of each same-named configuration container, in order; volumes untouched |
| Volumes.Mutate | internal/annotation/volumes/mount.go:38-64 | the in-place mutator returns the error and leaves the spec alone on a wrong config type; otherwise it sets the spec to `MutateSpec` of the old one |
| Volumes.MutateAppendsRenamedVolumes | internal/annotation/volumes/mount.go:44-52 | the new volume list is the old one followed by the config's volumes in order, each with its name kept and its ConfigMap and Secret references suffixed by `-<ordinal>` |
| Volumes.MountsForUnmatched | internal/annotation/volumes/mount.go:53-59 | configuration containers of other names contribute no mounts |
| Volumes.MountsForAppend | internal/annotation/volumes/mount.go:53-59 | two runs of configuration containers contribute the first run's mounts followed by the second's |
| Volumes.MountsForSingle | internal/annotation/volumes/mount.go:53-59 | the only configuration container of a name contributes exactly its mounts |
| Volumes.MutateLeavesUnmatched | internal/annotation/volumes/mount.go:53-59 | a spec container that no configuration container names is unchanged |
| Volumes.MutateMountsMatched | internal/annotation/volumes/mount.go:53-59 | a spec container named by one configuration container ends with its old mounts followed by that entry's |
| Volumes.MountsForNamed | internal/annotation/volumes/mount.go:53-59 | a spec container receives the mounts of every configuration container of its name, in the configuration's order |
| Volumes.MutateMountsAll | internal/annotation/volumes/mount.go:53-59 | every spec container ends with its old mounts followed by those of all same-named configuration containers, in order, once per entry |
| Volumes.MutateTwoEntriesExample | internal/annotation/volumes/mount.go:53-59 | two entries for one container both land on it, the first entry's mounts first |
| Volumes.MutateTwiceAppendsTwice | internal/annotation/volumes/mount.go:52 | applying a qualifying config twice appends its volumes twice: the mutator is not idempotent |
| Volumes.MutateConfigMapExample | internal/annotation/volumes/mount.go:38-64 | at ordinal 0, `my-configmap` becomes `my-configmap-0` and the mount lands on `main-container` |
| Volumes.MutateSecretExample | internal/annotation/volumes/mount.go:38-64 | at ordinal 0, secret `my-secret` becomes `my-secret-0` and the mount lands on `main-container` |
| Volumes.MutateExcludedExample | internal/annotation/volumes/mount.go:43-62 | qualifier `1-2` at ordinal 0 leaves any spec unchanged, without error |
| Env.Parse | internal/annotation/env/env.go:74-91 | nil config iff no entry is named `mount-env`; otherwise an env config with the qualifier and decoded payload of such an entry, or its decode error |
| Env.ParseSingle | internal/annotation/env/env.go:74-91 | with a single `mount-env` entry, the result is that entry's config or decode error, whatever the order |
| Env.RenameEnvFrom | internal/annotation/env/env.go:40-53 | each reference the source has gets `-<ordinal>` appended; an absent reference stays absent |
| Env.RenamedEnvFromsAsSuffixed | internal/annotation/env/env.go:40-53 | the renamed list has, position by position, the original references with `-<ordinal>` appended |
| Env.RenamedRefsSplitBack | internal/annotation/env/env.go:45-51 | the renaming can be undone: each renamed reference splits at its last `-` into the original reference and a numeral that reads back as the ordinal |
| Env.MutateSpec | internal/annotation/env/env.go:32-66 | error iff the config is not an env config; an excluding qualifier leaves the spec as it is; otherwise volumes are untouched, and containers keep count, order, names and mounts, with old env sources a prefix of the new |
| Env.RenameAll | internal/annotation/env/env.go:40-53 | the renaming loop gives, position by position, every present ConfigMap and Secret reference the suffix `-<ordinal>` and leaves absent ones absent |
| Env.EnvFromForSnoc | internal/annotation/env/env.go:54-61 | one more configuration container adds the list after the earlier contributions if its name matches |
| Env.EnvFromForOne | internal/annotation/env/env.go:56-58 | one configuration container adds the whole list to a container of its name and nothing to others |
| Env.WithEnvFromSnoc | internal/annotation/env/env.go:54-61 | one outer iteration applied after the earlier ones is the nested loop over one more configuration container |
| Env.AppendSource | internal/annotation/env/env.go:55-60 | the inner loop appends the renamed list to every container named like the source and leaves the volumes alone |
| Env.AppendToMatching | internal/annotation/env/env.go:54-61 | the nested loop gives every container its old sources followed by the list once per same-named configuration container; volumes untouched |
| Env.Mutate | internal/annotation/env/env.go:32-66 | the in-place mutator returns the error and leaves the spec alone on a wrong config type; otherwise it sets the spec to `MutateSpec` of the old one |
| Env.RepeatSnoc | internal/annotation/env/env.go:58 | one more copy of the list goes at the end |
| Env.CountSnoc | internal/annotation/env/env.go:54-56 | the count of configuration containers named `n` grows by one exactly when the last one is named `n` |
| Env.EnvFromForRepeat | internal/annotation/env/env.go:54-61 | a container receives the whole list once per configuration container of its name |
| Env.MutateAppendsEnvFrom | internal/annotation/env/env.go:40-61 | after a qualifying config, each container holds its old sources followed by the renamed top-level list, repeated once per configuration container of its name |
| Env.MutateRenamesEnvFromOnce | internal/annotation/env/env.go:40-61 | a container named by exactly one configuration container ends with its old sources followed by the top-level list, each reference suffixed by `-<ordinal>` |
| Env.MutateLeavesUnmatched | internal/annotation/env/env.go:54-61 | a spec container that no configuration container names is unchanged |
| Env.EnvFromForNamesOnly | internal/annotation/env/env.go:56-58 | what a container receives depends only on the configuration containers' names |
| Env.MutateIgnoresEntryEnvFrom | internal/annotation/env/env.go:58 | payloads whose containers differ only in their own env sources or mounts mutate any spec identically |
| Env.MutateDuplicateEntryExample | internal/annotation/env/env.go:54-61 | two entries naming `main-container` give it `my-configmap-1` twice at ordinal 1, whatever the entries' own sources |
| ConfigMap.Parse | internal/annotation/configmap/mount.go:41-56 | nil config iff no entry is named `mount-configmap`; otherwise a config-map config with the qualifier and decoded volumes and containers of such an entry, or its decode error |
| ConfigMap.ParseSingle | internal/annotation/configmap/mount.go:41-56 | with a single `mount-configmap` entry, the result is that entry's config or decode error, whatever the order |
| ConfigMap.ParseFirstOfTwo | internal/annotation/configmap/mount.go:42-49 | with `mount-configmap` and `mount-configmap_1-2` both present, the entry the enumeration reaches first is parsed |
| ConfigMap.Mutate | internal/annotation/configmap/mount.go:32-35 | given its own config type, the mutator returns no error and, having no write access to the spec, changes nothing |
| PodWebhook.ParseWith | internal/pod_webhook.go:47 | a handler's parse of the freshly collected annotations yields nil or that handler's own config kind |
| PodWebhook.MutateWith | internal/pod_webhook.go:53 | dispatches to the handler's mutator; the volume and env mutators fail exactly on a configuration of another kind |
| PodWebhook.Step | internal/pod_webhook.go:47-56 | one iteration: an aborted run stays aborted, a running one stays running only if it was, and a parsed run stays parsed |
| PodWebhook.StepFinds | internal/pod_webhook.go:47-56 | a handler that finds nothing leaves the progress alone; a built-in one never aborts and marks the run parsed exactly when it finds its configuration |
| PodWebhook.Run | internal/pod_webhook.go:46-57 | the loop: it ends running only if it started running, and once parsed it stays parsed |
| PodWebhook.Outcome | internal/pod_webhook.go:30-66 | a patch is only ever returned for a pod that decoded and carries a StatefulSet identity |
| PodWebhook.OutcomeOfRun | internal/pod_webhook.go:52-65 | for a StatefulSet pod the response is read off the loop's end: abort gives the mutate-failure response, parsed gives a patch of the final spec, otherwise unparsed |
| PodWebhook.RunUnfold | internal/pod_webhook.go:46-57 | the loop from handler `n` on is one step with handler `n`, then the loop over the rest |
| PodWebhook.RunFromAborted | internal/pod_webhook.go:53-56 | once a mutator has failed, later handlers change nothing |
| PodWebhook.RunAppend | internal/pod_webhook.go:46 | running two handler lists in turn is running their concatenation: handlers act in registration order |
| PodWebhook.ApplyHandler | internal/pod_webhook.go:47-56 | one iteration in place: skips on a parse error or nil config, otherwise marks the run parsed and mutates the spec, as `Step` says |
| PodWebhook.MutateInPlace | internal/pod_webhook.go:53 | the handler's `Mutate` on the spec in place: on success the spec becomes `MutateWith` of the old one, otherwise the error is returned |
| PodWebhook.RunHandlers | internal/pod_webhook.go:45-57 | the loop in place ends as `Run` says: running with the final spec and parsed flag, or with the first mutator error |
| PodWebhook.PodArgumentor.Register | internal/pod_webhook.go:81-83 | the handler is added after those already registered |
| PodWebhook.PodArgumentor.Handle | internal/pod_webhook.go:30-66 | the response is exactly `Outcome` over the registered handlers, in order |
| PodWebhook.DecodeFailureAllows | internal/pod_webhook.go:32-35 | a pod that does not decode is allowed without a patch |
| PodWebhook.NonStatefulSetPodAllows | internal/pod_webhook.go:39-42 | a pod without an identity is allowed without a patch, whatever the handlers: none is consulted |
| PodWebhook.RunCompletes | internal/pod_webhook.go:45-57 | with built-in handlers the loop never aborts, and it ends parsed iff it started parsed or some handler found its configuration |
| PodWebhook.NeverMutateFailed | internal/pod_webhook.go:53-56 | with the built-in handlers only, the mutate-failure response never occurs |
| PodWebhook.PatchedIffSomeHandlerFinds | internal/pod_webhook.go:45-65 | for a StatefulSet pod and built-in handlers of any number, the response is a patch iff some handler's parse succeeds with a non-nil config; otherwise it is the unparsed response |
| PodWebhook.MutateFailureDropsPatch | internal/pod_webhook.go:53-56 | a mutator failing after any handlers and before any others gives the mutate-failure response: earlier mutations are dropped and later handlers do not run |
| PodWebhook.RunSkipsUnparsed | internal/pod_webhook.go:47-50 | handlers whose parse fails or finds nothing leave the spec and the parsed flag as they were |
| PodWebhook.NoArgumentAnnotations | internal/pod_webhook.go:58-60 | a pod with no `ssarg.io/` annotation is allowed without a patch |
| PodWebhook.ParseWithoutArguments | internal/pod_webhook.go:47-49 | without `ssarg.io/` annotations a built-in parser returns the nil configuration |
| PodWebhook.ExcludedConfigStillPatches | internal/pod_webhook.go:51-65 | a config whose qualifier excludes the replica still counts as parsed: the response patches the spec to itself |
| PodWebhook.RunBothHandlers | internal/pod_webhook.go:46-57 | with the volume and then the env handler registered and both parsing, the result is the env mutation applied to the volume mutation |

## Left out

- JSON decoding of annotation values and of the admitted pod is a function parameter (`Decoders`, `Result<Pod, DecodeError>`). The JSON library is not part of this model.
- The regular expression engine is replaced by predicates. `RangeForm`, `ExactForm`, `LowerBoundForm`, `UpperBoundForm` and `HasHyphenDigit` state the five patterns over ASCII digits. `.` excludes the newline, as in Go's default mode.
- Strings are sequences of characters, while Go indexes strings by byte. The searched separators (`-`, `_`) are ASCII, so the cuts give the same pieces; byte offsets themselves are not modelled.
- Identity.HasHyphenDigit: its contract states only what a match implies (length and a `-`); the predicate's body is the pattern, and `Identity.Extract` and `Identity.HasHyphenDigitUnanchored` state its consequences.
- Strings.Atoi: does not model the overflow error of `strconv.Atoi`; integers are unbounded, so a numeral too large for `int` is out of scope.
- Go map iteration order is a parameter: an enumeration `order` of the map's keys, one per loop. Nothing is said about the order Go would choose.
- Logging calls have no behaviour and are omitted.
- The admission transport is not modelled: the request, `json.Marshal` of the pod, `PatchResponseFromRaw`, `InjectDecoder` and `SetupWebhookWithManager`. The patch is modelled as the mutated spec, and a marshalling failure cannot occur.
- The `SSPodId` and `Collector` fields of `PodArgumentor` are injected interfaces. The model fixes them to the label-based identifier and the default collector.
- The Kubernetes API types keep only the touched fields: volume name and ConfigMap/Secret reference names, env source reference names, container name, mounts and env sources, and the spec's containers and volumes.
- Pointer aliasing in the renames is not modelled. Go renames the configuration's own volume and env sources through pointers, so a configuration reused for a second mutation would be suffixed twice. The model renames copies.
- A typed-nil configuration, such as a nil `*mountConfig`, would make the Go mutators dereference nil. The model's configurations are never nil pointers.
- ConfigMap.Mutate: the panic on a configuration of another type is a precondition, not modelled behaviour.
- The CRD scaffolding in `api/v1beta1/argumentor_types.go` has no behaviour and is not part of this model.
