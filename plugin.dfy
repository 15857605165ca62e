/** The plugin's command handlers (cmd/istio-cni/main.go): cmdAdd with its
    eligibility decision, cmdGet and cmdDel, over recording collaborators. */
module Plugin {
  import opened Wrappers
  import opened GoBool
  import opened Logging
  import opened Cni

  /** Opaque handles returned by the collaborators. */
  datatype Client = Client(id: nat)
  datatype Redirect = Redirect(id: nat)

  /** One call into a collaborator, with the arguments it was given. */
  datatype Call =
    | NewKubeClient(conf: PluginConf)
    | GetKubePodInfo(client: Client, podName: string, podNamespace: string)
    | NewRedirect(proxyUID: int, proxyGID: int, ports: seq<string>, annotations: map<string, string>)
    | SetupRedirectHook(netns: string, ports: seq<string>)
    | DoRedirect(redirect: Redirect, netns: string, binDir: string, prog: string)
    | PrintResult(result: CniResult, cniVersion: string)

  /** How each collaborator answers: a function of its arguments. `doRedirect`
      also sees the script location it runs, which it reads from the globals. */
  datatype Answers = Answers(
    newKubeClient: PluginConf -> Result<Client, Error>,
    getKubePodInfo: (Client, string, string) -> Result<PodInfo, Error>,
    newRedirect: (int, int, seq<string>, map<string, string>) -> Result<Redirect, Error>,
    setupRedirect: (string, seq<string>) -> Option<Error>,
    doRedirect: (Redirect, string, string, string) -> Option<Error>,
    printResult: (CniResult, string) -> Option<Error>)

  /** The calls one handler makes, in order, and the error it returns (`None` is nil). */
  datatype Run = Run(calls: seq<Call>, err: Option<Error>)

  // ---------------------------------------------------------------------------
  // The decision, as the source states it

  /** The namespace equals, case-sensitively, an entry of `exclude_namespaces`. */
  predicate NamespaceExcluded(podNamespace: string, excludeNamespaces: seq<string>)
  {
    podNamespace in excludeNamespaces
  }

  /** The pod has a proxy and more than one container. */
  predicate HasSidecar(pod: PodInfo)
  {
    pod.hasProxy && |pod.containers| > 1
  }

  /** The inject annotation is present and parses as a Go boolean equal to false. */
  predicate InjectDisabled(annotations: map<string, string>)
  {
    InjectAnnotationKey in annotations && ParseBool(annotations[InjectAnnotationKey]) == Some(false)
  }

  /** The `excludePod` flag after both annotation checks. */
  predicate ExcludedByAnnotations(annotations: map<string, string>)
  {
    InjectDisabled(annotations) || SidecarStatusKey !in annotations
  }

  // ---------------------------------------------------------------------------
  // The specification of cmdAdd

  /** The Kubernetes part of cmdAdd (main.go lines 177-240): the calls it makes
      and the error it returns before any result is printed. */
  function PodRun(hookSet: bool, binDir: string, prog: string, a: Answers,
                  conf: PluginConf, podName: string, podNamespace: string, netns: string): Run
  {
    if podNamespace == "" || podName == "" then Run([], None)
    else if NamespaceExcluded(podNamespace, conf.kubernetes.excludeNamespaces) then Run([], None)
    else
      var client := a.newKubeClient(conf);
      if client.Failure? then Run([NewKubeClient(conf)], Some(client.error))
      else
        var lookup := [NewKubeClient(conf), GetKubePodInfo(client.value, podName, podNamespace)];
        var info := a.getKubePodInfo(client.value, podName, podNamespace);
        if info.Failure? then Run(lookup, Some(info.error))
        else
          var pod := info.value;
          if !HasSidecar(pod) || ExcludedByAnnotations(pod.annotations) then Run(lookup, None)
          else
            var built := lookup + [NewRedirect(pod.proxyUID, pod.proxyGID, pod.ports, pod.annotations)];
            var redirect := a.newRedirect(pod.proxyUID, pod.proxyGID, pod.ports, pod.annotations);
            if redirect.Failure? then Run(built, Some(redirect.error))
            else if hookSet then Run(built + [SetupRedirectHook(netns, pod.ports)], None)
            else Run(built + [DoRedirect(redirect.value, netns, binDir, prog)],
                     a.doRedirect(redirect.value, netns, binDir, prog))
  }

  /** All of cmdAdd: configuration and argument errors, the Kubernetes part with
      the script location after the override, then the printed result. */
  function AddRun(hookSet: bool, binDir: string, prog: string, a: Answers,
                  parsed: Result<PluginConf, Error>, loaded: Result<K8sArgs, Error>, netns: string): Run
  {
    if parsed.Failure? then Run([], Some(parsed.error))
    else if loaded.Failure? then Run([], Some(loaded.error))
    else
      var conf := parsed.value;
      var dir := Override(binDir, conf.kubernetes.cniBinDir);
      var script := Override(prog, conf.kubernetes.iptablesScript);
      var pod := PodRun(hookSet, dir, script, a, conf, loaded.value.podName, loaded.value.podNamespace, netns);
      if pod.err.Some? then pod
      else
        var result := SelectResult(conf.prevResult);
        Run(pod.calls + [PrintResult(result, conf.cniVersion)], a.printResult(result, conf.cniVersion))
  }

  // ---------------------------------------------------------------------------
  // State: the package globals and the collaborators

  /** The package-level variables cmdAdd reads and writes, and the logrus level. */
  class Globals {
    var nsSetupBinDir: string
    var nsSetupProg: string
    /** Whether the `setupRedirect` override hook is non-nil. */
    var hookSet: bool
    var logLevel: Level

    /** The values at program start (logrus starts at the Info level). */
    constructor ()
      ensures nsSetupBinDir == "/opt/cni/bin" && nsSetupProg == "istio-iptables.sh"
      ensures !hookSet && logLevel == Info
    {
      nsSetupBinDir := "/opt/cni/bin";
      nsSetupProg := "istio-iptables.sh";
      hookSet := false;
      logLevel := Info;
    }

    /** A test installs the override hook. */
    method InstallHook()
      modifies this
      ensures hookSet
      ensures nsSetupBinDir == old(nsSetupBinDir) && nsSetupProg == old(nsSetupProg) && logLevel == old(logLevel)
    {
      hookSet := true;
    }

    /** `ConfigureLogging`: installs the level chosen for the configured name. */
    method ConfigureLogging(logLevelName: string)
      modifies this
      ensures logLevel == LevelFor(logLevelName)
      ensures nsSetupBinDir == old(nsSetupBinDir) && nsSetupProg == old(nsSetupProg) && hookSet == old(hookSet)
    {
      logLevel := LevelFor(logLevelName);
    }
  }

  /** The collaborators cmdAdd calls. Each call is appended to `calls` and is
      answered as `answers` says. */
  class Host {
    const answers: Answers
    var calls: seq<Call>

    constructor (answers: Answers)
      ensures this.answers == answers && calls == []
    {
      this.answers := answers;
      calls := [];
    }

    method NewKubeClient(conf: PluginConf) returns (r: Result<Client, Error>)
      modifies this
      ensures calls == old(calls) + [Call.NewKubeClient(conf)] && r == answers.newKubeClient(conf)
    {
      calls := calls + [Call.NewKubeClient(conf)];
      r := answers.newKubeClient(conf);
    }

    method GetKubePodInfo(client: Client, podName: string, podNamespace: string) returns (r: Result<PodInfo, Error>)
      modifies this
      ensures calls == old(calls) + [Call.GetKubePodInfo(client, podName, podNamespace)]
      ensures r == answers.getKubePodInfo(client, podName, podNamespace)
    {
      calls := calls + [Call.GetKubePodInfo(client, podName, podNamespace)];
      r := answers.getKubePodInfo(client, podName, podNamespace);
    }

    method NewRedirect(proxyUID: int, proxyGID: int, ports: seq<string>, annotations: map<string, string>)
      returns (r: Result<Redirect, Error>)
      modifies this
      ensures calls == old(calls) + [Call.NewRedirect(proxyUID, proxyGID, ports, annotations)]
      ensures r == answers.newRedirect(proxyUID, proxyGID, ports, annotations)
    {
      calls := calls + [Call.NewRedirect(proxyUID, proxyGID, ports, annotations)];
      r := answers.newRedirect(proxyUID, proxyGID, ports, annotations);
    }

    method SetupRedirect(netns: string, ports: seq<string>) returns (r: Option<Error>)
      modifies this
      ensures calls == old(calls) + [SetupRedirectHook(netns, ports)] && r == answers.setupRedirect(netns, ports)
    {
      calls := calls + [SetupRedirectHook(netns, ports)];
      r := answers.setupRedirect(netns, ports);
    }

    method DoRedirect(redirect: Redirect, netns: string, binDir: string, prog: string) returns (r: Option<Error>)
      modifies this
      ensures calls == old(calls) + [Call.DoRedirect(redirect, netns, binDir, prog)]
      ensures r == answers.doRedirect(redirect, netns, binDir, prog)
    {
      calls := calls + [Call.DoRedirect(redirect, netns, binDir, prog)];
      r := answers.doRedirect(redirect, netns, binDir, prog);
    }

    method PrintResult(result: CniResult, cniVersion: string) returns (r: Option<Error>)
      modifies this
      ensures calls == old(calls) + [Call.PrintResult(result, cniVersion)] && r == answers.printResult(result, cniVersion)
    {
      calls := calls + [Call.PrintResult(result, cniVersion)];
      r := answers.printResult(result, cniVersion);
    }
  }

  // ---------------------------------------------------------------------------
  // The handlers

  /** `cmdAdd`: the calls it makes and the error it returns are those of `AddRun`;
      the globals change as the override rule and `ConfigureLogging` say. */
  method CmdAdd(g: Globals, h: Host, parsed: Result<PluginConf, Error>, loaded: Result<K8sArgs, Error>, netns: string)
    returns (err: Option<Error>)
    modifies g, h
    ensures var run := AddRun(old(g.hookSet), old(g.nsSetupBinDir), old(g.nsSetupProg), h.answers, parsed, loaded, netns);
            h.calls == old(h.calls) + run.calls && err == run.err
    ensures g.hookSet == old(g.hookSet)
    ensures g.logLevel == if parsed.Success? then LevelFor(parsed.value.logLevel) else old(g.logLevel)
    ensures g.nsSetupBinDir == if parsed.Success? && loaded.Success?
                               then Override(old(g.nsSetupBinDir), parsed.value.kubernetes.cniBinDir)
                               else old(g.nsSetupBinDir)
    ensures g.nsSetupProg == if parsed.Success? && loaded.Success?
                             then Override(old(g.nsSetupProg), parsed.value.kubernetes.iptablesScript)
                             else old(g.nsSetupProg)
  {
    if parsed.Failure? {
      return Some(parsed.error);
    }
    var conf := parsed.value;
    g.ConfigureLogging(conf.logLevel);
    if loaded.Failure? {
      return Some(loaded.error);
    }
    var k8sArgs := loaded.value;
    if conf.kubernetes.cniBinDir != "" {
      g.nsSetupBinDir := conf.kubernetes.cniBinDir;
    }
    if conf.kubernetes.iptablesScript != "" {
      g.nsSetupProg := conf.kubernetes.iptablesScript;
    }
    var podErr := AddForPod(g, h, conf, k8sArgs.podName, k8sArgs.podNamespace, netns);
    if podErr.Some? {
      return podErr;
    }

    var result := SelectResult(conf.prevResult);
    err := h.PrintResult(result, conf.cniVersion);
  }

  /** The Kubernetes part of `cmdAdd` (main.go lines 168-240), with the script
      location already overridden: the calls it makes and the error it returns
      are those of `PodRun`. */
  method AddForPod(g: Globals, h: Host, conf: PluginConf, podName: string, podNamespace: string, netns: string)
    returns (err: Option<Error>)
    modifies h
    ensures var run := PodRun(g.hookSet, g.nsSetupBinDir, g.nsSetupProg, h.answers, conf, podName, podNamespace, netns);
            h.calls == old(h.calls) + run.calls && err == run.err
  {
    err := None;
    if podNamespace != "" && podName != "" {
      var excludeNamespaces := conf.kubernetes.excludeNamespaces;
      var excludePod := false;
      var i := 0;
      while i < |excludeNamespaces|
        invariant 0 <= i <= |excludeNamespaces|
        invariant !excludePod
        invariant podNamespace !in excludeNamespaces[..i]
      {
        if podNamespace == excludeNamespaces[i] {
          excludePod := true;
          break;
        }
        i := i + 1;
      }
      assert excludePod == NamespaceExcluded(podNamespace, excludeNamespaces) by {
        if !excludePod { assert excludeNamespaces[..i] == excludeNamespaces; }
      }
      if !excludePod {
        var client := h.NewKubeClient(conf);
        if client.Failure? {
          return Some(client.error);
        }
        var info := h.GetKubePodInfo(client.value, podName, podNamespace);
        if info.Failure? {
          return Some(info.error);
        }
        var pod := info.value;
        if pod.hasProxy && |pod.containers| > 1 {
          if InjectAnnotationKey in pod.annotations {
            var injectEnabled := ParseBool(pod.annotations[InjectAnnotationKey]);
            if injectEnabled.Some? && !injectEnabled.value {
              excludePod := true;
            }
          }
          if SidecarStatusKey !in pod.annotations {
            excludePod := true;
          }
          if !excludePod {
            var redirect := h.NewRedirect(pod.proxyUID, pod.proxyGID, pod.ports, pod.annotations);
            if redirect.Failure? {
              return Some(redirect.error);
            }
            if g.hookSet {
              var discarded := h.SetupRedirect(netns, pod.ports);
            } else {
              var e := h.DoRedirect(redirect.value, netns, g.nsSetupBinDir, g.nsSetupProg);
              if e.Some? {
                return e;
              }
            }
          }
        }
      }
    }
  }

  /** `cmdGet`: not implemented; its arguments are ignored, so none are modelled. */
  function CmdGet(): (err: Option<Error>)
    ensures err.Some? && err.value.message == "not implemented"
  {
    Some(Error("not implemented"))
  }

  /** `cmdDel`: parses the configuration, sets the log level and does nothing else. */
  method CmdDel(g: Globals, parsed: Result<PluginConf, Error>) returns (err: Option<Error>)
    modifies g
    ensures err == if parsed.Failure? then Some(parsed.error) else None
    ensures g.logLevel == if parsed.Success? then LevelFor(parsed.value.logLevel) else old(g.logLevel)
    ensures g.nsSetupBinDir == old(g.nsSetupBinDir) && g.nsSetupProg == old(g.nsSetupProg) && g.hookSet == old(g.hookSet)
  {
    if parsed.Failure? {
      return Some(parsed.error);
    }
    g.ConfigureLogging(parsed.value.logLevel);
    return None;
  }

  /** Deleting twice with the same configuration answers the same both times and
      leaves the same state as deleting once; with a valid configuration neither fails. */
  method CmdDelTwice(g: Globals, parsed: Result<PluginConf, Error>) returns (first: Option<Error>, second: Option<Error>)
    modifies g
    ensures first == second
    ensures parsed.Success? ==> second.None?
    ensures g.logLevel == if parsed.Success? then LevelFor(parsed.value.logLevel) else old(g.logLevel)
    ensures g.nsSetupBinDir == old(g.nsSetupBinDir) && g.nsSetupProg == old(g.nsSetupProg) && g.hookSet == old(g.hookSet)
  {
    first := CmdDel(g, parsed);
    second := CmdDel(g, parsed);
  }
}
