# istio-cni ADD decision, modelled in Dafny

This project models the command handlers of the `istio-cni` chained CNI plugin
(`cmd/istio-cni/main.go`). The centre is `cmdAdd`: from the pod name and
namespace passed in `CNI_ARGS`, the `exclude_namespaces` list of the plugin
configuration and the facts a Kubernetes lookup returns about the pod, it
decides whether the pod's network namespace gets the iptables redirect to the
sidecar proxy. It then prints the CNI result for the next plugin in the chain.

Modules:

- `Wrappers`: `Option` and `Result`.
- `GoBool`: Go's `strconv.ParseBool`, exactly as the Go standard library defines it.
- `Logging`: the level choice of `ConfigureLogging` and the case-insensitive comparison it uses.
- `Cni`: the parsed configuration, the Kubernetes arguments, the pod facts, the CNI result, the result selection and the override rule for the script location.
- `Plugin`: the package globals as a class `Globals`; the collaborators as a recording class `Host`; the decision predicates; the specification functions `PodRun` and `AddRun`; the imperative handlers `CmdAdd`, `AddForPod`, `CmdDel`; and the function `CmdGet`.
- `AddProperties`: lemmas over `AddRun` that state what an ADD does.

The collaborators `newKubeClient`, `getKubePodInfo`, `NewRedirect`,
`Redirect.doRedirect` and `types.PrintResult` are defined outside main.go. The
`setupRedirect` override hook is a variable declared in main.go (lines 43-44),
but the function a test assigns to it lives elsewhere; whether it is set is
`Globals.hookSet`. Each collaborator, the hook included, becomes a method of `Host`. The method
appends a `Call` record to `Host.calls` and returns the answer given by an
`Answers` value. That value holds one function per collaborator, so every answer depends only
on the call's arguments. `doRedirect` reads the package globals `nsSetupBinDir`
and `nsSetupProg` to locate its script, so its record carries them. This is how the
override of those globals in `cmdAdd` becomes observable. `CmdAdd` is proved
to make exactly the calls of `AddRun`, in order, and to return its error. The
lemmas in `AddProperties` then state the plugin's promises about `AddRun`,
mostly for all inputs and all collaborator answers. `InjectDisabledIff`,
`InjectAnnotationIsLenient` and `SidecarStatusPresenceOnly` are about the
annotation predicates that `AddRun` uses. `NamespaceMatchIsExact`,
`SamplePodIsRedirected` and `KubeSystemPodIsSkipped` are fixed examples.

The exclusion decision is one boolean, `excludePod`, as in the source. The
namespace loop and the two annotation checks each set it. There is no tagged
reason.

## Model

| member | source | states |
|---|---|---|
| GoBool.ParseBool | cmd/istio-cni/main.go:210 | `strconv.ParseBool` accepts exactly `1 t T TRUE true True` (true) and `0 f F FALSE false False` (false); every other string is an error |
| GoBool.ParseFormatRoundTrip | cmd/istio-cni/main.go:210 | (illustration; main.go never formats a boolean) parsing Go's canonical spelling of a boolean gives that boolean back |
| GoBool.FormatParseRoundTrip | cmd/istio-cni/main.go:210 | (illustration) every accepted spelling parses to the same value as the canonical spelling of that value |
| GoBool.ParseBoolRejects | cmd/istio-cni/main.go:210 | `not-a-bool`, mixed case such as `tRUE`, `yes`, the empty string and padded values are parse errors |
| Logging.FoldChar | cmd/istio-cni/main.go:121-123 | folds one character for the case-insensitive comparison: the result is never an upper-case ASCII letter, and a character it changes becomes a lower-case letter |
| Logging.FoldCharAgree | cmd/istio-cni/main.go:121-123 | two characters fold together exactly when they are equal or are the upper- and lower-case forms of the same ASCII letter |
| Logging.EqualFold | cmd/istio-cni/main.go:121-123 | defines `strings.EqualFold` over ASCII folding, compared from the front; its meaning is stated by `EqualFoldPointwise` |
| Logging.EqualFoldPointwise | cmd/istio-cni/main.go:121-123 | the case-insensitive comparison holds exactly when both strings have the same length and agree at every position up to letter case |
| Logging.FoldCharIdempotent | cmd/istio-cni/main.go:121-123 | folding a character a second time changes nothing, so a folded character is never an upper-case ASCII letter again |
| Logging.EqualFoldEquivalence | cmd/istio-cni/main.go:121-123 | the comparison is reflexive, symmetric and transitive |
| Logging.LevelFor | cmd/istio-cni/main.go:120-128 | the level is Debug exactly when the name equals `debug` ignoring case, Info exactly when it equals `info` ignoring case (and not `debug`), and Warn for every other name |
| Logging.LevelForIgnoresCase | cmd/istio-cni/main.go:120-128 | two names that differ only in letter case select the same level |
| Logging.LevelForAnyCapitalisation | cmd/istio-cni/main.go:120-128 | every capitalisation of `debug` selects Debug and every capitalisation of `info` selects Info |
| Logging.LevelForExamples | cmd/istio-cni/main.go:120-128 | `DEBUG` gives Debug, `Info` gives Info; the empty name, `warning` and `debug ` (with a space) give Warn |
| Cni.SelectResult | cmd/istio-cni/main.go:242-250 | defines the result ADD prints: the previous result when present, else a fresh one; its meaning is stated by `SelectResultPassesThrough` |
| Cni.SelectResultPassesThrough | cmd/istio-cni/main.go:242-250 | a previous result is passed through unchanged; without one the fresh result carries `ImplementedSpecVersion` and nothing else |
| Cni.Override | cmd/istio-cni/main.go:161-166 | the script location takes the configured value exactly when that value is non-empty, otherwise it keeps the current value |
| Cni.OverrideSticks | cmd/istio-cni/main.go:161-166 | because the location is a package global, a replacement persists: a later configuration with an empty value keeps the earlier replacement |
| Plugin.NamespaceExcluded | cmd/istio-cni/main.go:180-185 | defines namespace exclusion: the namespace equals, case-sensitively, an entry of `exclude_namespaces` |
| Plugin.HasSidecar | cmd/istio-cni/main.go:198 | defines the first eligibility test: the pod has a proxy and more than one container |
| Plugin.InjectDisabled | cmd/istio-cni/main.go:208-216 | defines the inject check: the key is present and its value parses as a Go boolean equal to false |
| Plugin.ExcludedByAnnotations | cmd/istio-cni/main.go:208-220 | defines the `excludePod` flag after both annotation checks: the inject check holds or the status key is absent |
| Plugin.PodRun | cmd/istio-cni/main.go:168-240 | defines the calls and the error of the Kubernetes part of ADD, as a function of the hook flag, the script location, the collaborators' answers, the configuration, the pod arguments and the netns |
| Plugin.AddRun | cmd/istio-cni/main.go:134-252 | defines the calls and the error of a whole ADD: the parse and argument errors, then `PodRun` with the overridden script location, then the print of `SelectResult` |
| Plugin.Globals.constructor | cmd/istio-cni/main.go:35-44 | at start the script lives in `/opt/cni/bin` and is called `istio-iptables.sh`, and the override hook is nil |
| Plugin.Globals.InstallHook | cmd/istio-cni/main.go:43-44 | a test sets the override hook and nothing else changes |
| Plugin.Globals.ConfigureLogging | cmd/istio-cni/main.go:120-131 | installs the level `LevelFor` names for the configured name and changes no other global |
| Plugin.Host.constructor | cmd/istio-cni/main.go:187-251 | a fresh host has recorded no calls and answers as it was given |
| Plugin.Host.NewKubeClient | cmd/istio-cni/main.go:187 | records the client creation with its configuration and returns the scripted client or error |
| Plugin.Host.GetKubePodInfo | cmd/istio-cni/main.go:192 | records the lookup with the pod name and namespace and returns the scripted pod facts or error |
| Plugin.Host.NewRedirect | cmd/istio-cni/main.go:223 | records the construction with the proxy UID, GID, ports and annotations and returns the scripted redirect or error |
| Plugin.Host.SetupRedirect | cmd/istio-cni/main.go:227-228 | records the hook call with the netns and ports and returns the hook's error |
| Plugin.Host.DoRedirect | cmd/istio-cni/main.go:229 | records the script run with the netns and the script location and returns its error |
| Plugin.Host.PrintResult | cmd/istio-cni/main.go:251 | records the printed result with the requested CNI version and returns the printing error |
| Plugin.CmdAdd | cmd/istio-cni/main.go:134-252 | makes exactly the calls of `AddRun`, in order, and returns its error; installs the configured log level once the configuration parsed; overrides the script location once the arguments loaded; leaves the hook alone |
| Plugin.AddForPod | cmd/istio-cni/main.go:168-240 | the Kubernetes part of ADD (the namespace loop, the annotation checks, the redirect paths) makes exactly the calls of `PodRun`, in order, and returns its error |
| Plugin.CmdGet | cmd/istio-cni/main.go:254-258 | GET always fails with `not implemented` |
| Plugin.CmdDel | cmd/istio-cni/main.go:261-273 | DEL fails only with the configuration's parse error; otherwise it sets the log level and changes nothing else |
| Plugin.CmdDelTwice | cmd/istio-cni/main.go:261-273 | two DELs with the same configuration answer the same, and neither fails when the configuration parses |
| AddProperties.NoKubernetesData | cmd/istio-cni/main.go:178 | with an empty pod name or namespace, ADD makes no lookup and no redirect, and only prints its result |
| AddProperties.ExcludedNamespaceSkipsPod | cmd/istio-cni/main.go:179-186 | a pod in an excluded namespace gets no client, no lookup and no redirect, and ADD only prints its result |
| AddProperties.LookedUpIff | cmd/istio-cni/main.go:178-192 | the pod is looked up exactly when its name and namespace are non-empty, the namespace is not in the exclusion list and the client could be created |
| AddProperties.IneligiblePodIsOnlyLookedUp | cmd/istio-cni/main.go:192-220 | a looked-up pod that fails the proxy, container or annotation checks gets exactly the client, the lookup and the print, and ADD returns the print's answer |
| AddProperties.NamespaceMatchIsExact | cmd/istio-cni/main.go:181 | the namespace comparison is exact: another capitalisation or a prefix of an excluded name is not excluded |
| AddProperties.ClientFailureIsReturned | cmd/istio-cni/main.go:187-190 | a failing client creation is returned before any lookup |
| AddProperties.LookupFailureIsReturned | cmd/istio-cni/main.go:192-196 | a failing lookup is ADD's error, and neither `NewRedirect` nor any executor is called, nor is a result printed |
| AddProperties.RedirectBuiltIffEligible | cmd/istio-cni/main.go:178-223 | `NewRedirect` is called exactly when the name and namespace are non-empty, the namespace is not excluded, client and lookup succeed, the pod has a proxy and more than one container, the inject annotation does not disable it and the status annotation is present |
| AddProperties.NoRedirectWithoutSidecar | cmd/istio-cni/main.go:198 | a pod without a proxy or with at most one container gets no redirect and no executor call, whatever its annotations |
| AddProperties.ExecutorsOnlyAfterRedirect | cmd/istio-cni/main.go:221-232 | an executor is never called unless `NewRedirect` was, and every executor call comes right after the `NewRedirect` call |
| AddProperties.NoExecutorWhenIneligible | cmd/istio-cni/main.go:178-233 | an ineligible pod causes no executor call |
| AddProperties.InjectDisabledIff | cmd/istio-cni/main.go:208-216 | the inject annotation excludes the pod exactly when it is present and its value is one of the six spellings of false |
| AddProperties.InjectAnnotationIsLenient | cmd/istio-cni/main.go:208-216 | a missing inject key, a true value or an unparsable value such as `not-a-bool` never excludes |
| AddProperties.SidecarStatusPresenceOnly | cmd/istio-cni/main.go:217-220 | the status annotation's value never matters; its absence alone excludes; with it present, only the inject annotation can exclude |
| AddProperties.RedirectPaths | cmd/istio-cni/main.go:221-232 | for an eligible pod: a failing `NewRedirect` is returned and nothing runs; else a set hook alone runs with the netns and ports and its error is dropped; else the script runs with the overridden location and its error is returned |
| AddProperties.AtMostOneExecutor | cmd/istio-cni/main.go:221-232 | on every input, ADD makes at most one executor call |
| AddProperties.ResultIndependentOfDecision | cmd/istio-cni/main.go:242-251 | whenever ADD succeeds, its last call printed the previous result or a fresh one with `ImplementedSpecVersion`, whatever was decided; a print happens only as the last call, and its error is ADD's error |
| AddProperties.SamplePodIsRedirected | cmd/istio-cni/main.go:177-251 | a pod with containers `app` and `istio-proxy`, a status annotation, port 9080 and UID/GID 1337 is redirected: `NewRedirect` gets exactly those values and the script runs exactly once |
| AddProperties.KubeSystemPodIsSkipped | cmd/istio-cni/main.go:180-186 | the same pod in the excluded namespace `kube-system` is not touched and ADD succeeds |

## Left out

- `parseConfig` (JSON decoding and CNI version conversion) is done by external libraries. ADD and DEL take its outcome as a `Result<PluginConf, Error>`, so its error path is modelled but its contents are not.
- `types.LoadArgs` (parsing `CNI_ARGS`) is an external library. ADD takes its outcome as a `Result<K8sArgs, Error>`.
- `newKubeClient`, `getKubePodInfo`, `NewRedirect`, `doRedirect` and the hook are defined in files that are not part of this model. They are fallible collaborators whose answers depend only on their arguments. No validation rule of theirs is modelled: in particular, no check that the ports are non-empty exists in `cmdAdd`. The pod labels are returned by the lookup and ignored.
- `types.PrintResult` converts the result to the requested CNI version and writes JSON to standard output. It is a fallible collaborator that records what it was asked to print.
- `ImplementedSpecVersion` is taken as `0.3.1`, the value in release 0.6 of the CNI library; that library is not part of this model. The initial logrus level Info is likewise taken from logrus.
- Logging.EqualFold: folds ASCII letters only. Go's `strings.EqualFold` also folds non-ASCII letters, but the only non-ASCII letters that fold to ASCII ones fold to `k` or `s`. Neither letter occurs in `debug` or `info`, so the level choice is the same.
- Log output, the logrus formatter and hooks, `main` and `skel.PluginMain` are process wiring and side effects on standard error.
- Concurrency: each invocation is a separate process, and the package globals are modelled only within one `Globals` object.
- `cmdAdd` keeps no exclusion reason: one `excludePod` flag records the decision. It does no port validation of its own, since `NewRedirect` is opaque. It discards the override hook's error (main.go line 228). The model follows all three.
