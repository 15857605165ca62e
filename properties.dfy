/** What cmdAdd promises, stated over its specification `AddRun`. */
module AddProperties {
  import opened Wrappers
  import opened GoBool
  import opened Cni
  import opened Plugin

  // ---------------------------------------------------------------------------
  // Observations on a trace of calls

  /** A redirect executor: the override hook or the iptables script. */
  predicate IsExecutor(c: Call)
  {
    c.SetupRedirectHook? || c.DoRedirect?
  }

  /** The number of executor calls in a trace. */
  function ExecutorCalls(calls: seq<Call>): nat
  {
    if calls == [] then 0 else (if IsExecutor(calls[0]) then 1 else 0) + ExecutorCalls(calls[1..])
  }

  lemma {:induction false} ExecutorCallsAppend(front: seq<Call>, back: seq<Call>)
    ensures ExecutorCalls(front + back) == ExecutorCalls(front) + ExecutorCalls(back)
  {
    if front == [] {
      assert front + back == back;
    } else {
      assert (front + back)[0] == front[0];
      assert (front + back)[1..] == front[1..] + back;
      ExecutorCallsAppend(front[1..], back);
    }
  }

  lemma {:induction false} NoExecutorCalls(calls: seq<Call>)
    requires forall i :: 0 <= i < |calls| ==> !IsExecutor(calls[i])
    ensures ExecutorCalls(calls) == 0
  {
    if calls != [] {
      assert forall i :: 0 <= i < |calls| - 1 ==> calls[1..][i] == calls[i + 1];
      NoExecutorCalls(calls[1..]);
    }
  }

  /** The pod metadata was looked up. */
  predicate LookedUp(calls: seq<Call>)
  {
    exists i :: 0 <= i < |calls| && calls[i].GetKubePodInfo?
  }

  /** A redirect was set up, that is, `NewRedirect` was called. */
  predicate RedirectBuilt(calls: seq<Call>)
  {
    exists i :: 0 <= i < |calls| && calls[i].NewRedirect?
  }

  /** The result an ADD prints on success, whatever was decided about the pod. */
  function AddResult(conf: PluginConf): Call
  {
    PrintResult(SelectResult(conf.prevResult), conf.cniVersion)
  }

  /** Everything that must hold for cmdAdd to build a redirect, stated as one
      conjunction over the inputs and the collaborators' answers. */
  predicate Eligible(a: Answers, parsed: Result<PluginConf, Error>, loaded: Result<K8sArgs, Error>)
  {
    && parsed.Success? && loaded.Success?
    && loaded.value.podName != "" && loaded.value.podNamespace != ""
    && loaded.value.podNamespace !in parsed.value.kubernetes.excludeNamespaces
    && a.newKubeClient(parsed.value).Success?
    && var pod := a.getKubePodInfo(a.newKubeClient(parsed.value).value, loaded.value.podName, loaded.value.podNamespace);
       && pod.Success?
       && pod.value.hasProxy && |pod.value.containers| > 1
       && !InjectDisabled(pod.value.annotations)
       && SidecarStatusKey in pod.value.annotations
  }

  // ---------------------------------------------------------------------------
  // The gate on Kubernetes data and on excluded namespaces

  /** Without a pod name or namespace nothing is looked up or redirected, and
      the ADD prints its result. */
  lemma NoKubernetesData(hookSet: bool, binDir: string, prog: string, a: Answers,
                         conf: PluginConf, args: K8sArgs, netns: string)
    requires args.podName == "" || args.podNamespace == ""
    ensures var run := AddRun(hookSet, binDir, prog, a, Success(conf), Success(args), netns);
            && run.calls == [AddResult(conf)]
            && run.err == a.printResult(SelectResult(conf.prevResult), conf.cniVersion)
            && !LookedUp(run.calls) && !RedirectBuilt(run.calls) && ExecutorCalls(run.calls) == 0
  {
  }

  /** A pod in an excluded namespace gets no client, no lookup and no redirect,
      and the ADD prints its result. */
  lemma ExcludedNamespaceSkipsPod(hookSet: bool, binDir: string, prog: string, a: Answers,
                                  conf: PluginConf, args: K8sArgs, netns: string)
    requires args.podName != "" && args.podNamespace != ""
    requires args.podNamespace in conf.kubernetes.excludeNamespaces
    ensures var run := AddRun(hookSet, binDir, prog, a, Success(conf), Success(args), netns);
            && run.calls == [AddResult(conf)]
            && run.err == a.printResult(SelectResult(conf.prevResult), conf.cniVersion)
            && !LookedUp(run.calls) && !RedirectBuilt(run.calls) && ExecutorCalls(run.calls) == 0
  {
  }

  /** The pod is looked up exactly when it has a name and a namespace, the
      namespace is not excluded and the client could be created. */
  lemma LookedUpIff(hookSet: bool, binDir: string, prog: string, a: Answers,
                    conf: PluginConf, args: K8sArgs, netns: string)
    ensures LookedUp(AddRun(hookSet, binDir, prog, a, Success(conf), Success(args), netns).calls) <==>
            && args.podName != "" && args.podNamespace != ""
            && args.podNamespace !in conf.kubernetes.excludeNamespaces
            && a.newKubeClient(conf).Success?
  {
    var run := AddRun(hookSet, binDir, prog, a, Success(conf), Success(args), netns);
    if args.podName == "" || args.podNamespace == "" || args.podNamespace in conf.kubernetes.excludeNamespaces {
      assert run.calls == [AddResult(conf)];
    } else if a.newKubeClient(conf).Failure? {
      assert run.calls == [NewKubeClient(conf)];
    } else {
      assert run.calls[1].GetKubePodInfo?;
    }
  }

  /** A pod that is looked up and found ineligible is left alone: the trace is
      the client, the lookup and the print, and ADD returns the print's answer. */
  lemma IneligiblePodIsOnlyLookedUp(hookSet: bool, binDir: string, prog: string, a: Answers,
                                    conf: PluginConf, args: K8sArgs, netns: string)
    requires args.podName != "" && args.podNamespace != ""
    requires args.podNamespace !in conf.kubernetes.excludeNamespaces
    requires a.newKubeClient(conf).Success?
    requires var pod := a.getKubePodInfo(a.newKubeClient(conf).value, args.podName, args.podNamespace);
             pod.Success? && (!HasSidecar(pod.value) || ExcludedByAnnotations(pod.value.annotations))
    ensures var run := AddRun(hookSet, binDir, prog, a, Success(conf), Success(args), netns);
            run == Run([NewKubeClient(conf), GetKubePodInfo(a.newKubeClient(conf).value, args.podName, args.podNamespace),
                        AddResult(conf)],
                       a.printResult(SelectResult(conf.prevResult), conf.cniVersion))
  {
  }

  /** Namespace exclusion is exact: another capitalisation or a prefix is not excluded. */
  lemma NamespaceMatchIsExact()
    ensures NamespaceExcluded("kube-system", ["default", "kube-system"])
    ensures !NamespaceExcluded("Kube-System", ["kube-system"])
    ensures !NamespaceExcluded("kube", ["kube-system"])
  {
  }

  // ---------------------------------------------------------------------------
  // Errors from the collaborators

  /** A failing lookup is returned as it is; nothing after it is called. */
  lemma LookupFailureIsReturned(hookSet: bool, binDir: string, prog: string, a: Answers,
                                conf: PluginConf, args: K8sArgs, netns: string)
    requires args.podName != "" && args.podNamespace != ""
    requires args.podNamespace !in conf.kubernetes.excludeNamespaces
    requires a.newKubeClient(conf).Success?
    requires a.getKubePodInfo(a.newKubeClient(conf).value, args.podName, args.podNamespace).Failure?
    ensures var run := AddRun(hookSet, binDir, prog, a, Success(conf), Success(args), netns);
            && run.err == Some(a.getKubePodInfo(a.newKubeClient(conf).value, args.podName, args.podNamespace).error)
            && run.calls == [NewKubeClient(conf), GetKubePodInfo(a.newKubeClient(conf).value, args.podName, args.podNamespace)]
            && !RedirectBuilt(run.calls) && ExecutorCalls(run.calls) == 0
  {
    var run := AddRun(hookSet, binDir, prog, a, Success(conf), Success(args), netns);
    assert !run.calls[0].NewRedirect? && !run.calls[1].NewRedirect?;
    NoExecutorCalls(run.calls);
  }

  /** A failing client creation is returned before any lookup. */
  lemma ClientFailureIsReturned(hookSet: bool, binDir: string, prog: string, a: Answers,
                                conf: PluginConf, args: K8sArgs, netns: string)
    requires args.podName != "" && args.podNamespace != ""
    requires args.podNamespace !in conf.kubernetes.excludeNamespaces
    requires a.newKubeClient(conf).Failure?
    ensures var run := AddRun(hookSet, binDir, prog, a, Success(conf), Success(args), netns);
            && run == Run([NewKubeClient(conf)], Some(a.newKubeClient(conf).error))
            && !LookedUp(run.calls)
  {
  }

  // ---------------------------------------------------------------------------
  // The eligibility decision

  /** cmdAdd builds a redirect exactly when the pod is eligible; in particular
      never without a proxy and a second container, whatever the annotations. */
  lemma RedirectBuiltIffEligible(hookSet: bool, binDir: string, prog: string, a: Answers,
                                 parsed: Result<PluginConf, Error>, loaded: Result<K8sArgs, Error>, netns: string)
    ensures RedirectBuilt(AddRun(hookSet, binDir, prog, a, parsed, loaded, netns).calls) <==> Eligible(a, parsed, loaded)
  {
    var run := AddRun(hookSet, binDir, prog, a, parsed, loaded, netns);
    if Eligible(a, parsed, loaded) {
      assert run.calls[2].NewRedirect?;
    } else if parsed.Success? && loaded.Success? {
      var conf, args := parsed.value, loaded.value;
      if args.podName != "" && args.podNamespace != "" && args.podNamespace !in conf.kubernetes.excludeNamespaces
         && a.newKubeClient(conf).Success? {
        assert !run.calls[0].NewRedirect? && !run.calls[1].NewRedirect?;
        assert forall i :: 2 <= i < |run.calls| ==> run.calls[i].PrintResult?;
      } else {
        assert forall i :: 0 <= i < |run.calls| ==> !run.calls[i].NewRedirect?;
      }
    }
  }

  /** The proxy and container check comes first: a pod without both gets no
      redirect and no executor call, whatever its annotations say. */
  lemma NoRedirectWithoutSidecar(hookSet: bool, binDir: string, prog: string, a: Answers,
                                 parsed: Result<PluginConf, Error>, loaded: Result<K8sArgs, Error>, netns: string)
    requires parsed.Success? && loaded.Success? && a.newKubeClient(parsed.value).Success?
    requires var pod := a.getKubePodInfo(a.newKubeClient(parsed.value).value, loaded.value.podName, loaded.value.podNamespace);
             pod.Success? && !(pod.value.hasProxy && |pod.value.containers| > 1)
    ensures var run := AddRun(hookSet, binDir, prog, a, parsed, loaded, netns);
            !RedirectBuilt(run.calls) && ExecutorCalls(run.calls) == 0
  {
    RedirectBuiltIffEligible(hookSet, binDir, prog, a, parsed, loaded, netns);
    ExecutorsOnlyAfterRedirect(hookSet, binDir, prog, a, parsed, loaded, netns);
  }

  /** An executor is only ever called right after `NewRedirect`. */
  lemma ExecutorsOnlyAfterRedirect(hookSet: bool, binDir: string, prog: string, a: Answers,
                                   parsed: Result<PluginConf, Error>, loaded: Result<K8sArgs, Error>, netns: string)
    ensures var run := AddRun(hookSet, binDir, prog, a, parsed, loaded, netns);
            ExecutorCalls(run.calls) > 0 ==> RedirectBuilt(run.calls)
    ensures var run := AddRun(hookSet, binDir, prog, a, parsed, loaded, netns);
            forall i :: 0 <= i < |run.calls| && IsExecutor(run.calls[i]) ==> i > 0 && run.calls[i - 1].NewRedirect?
  {
    var run := AddRun(hookSet, binDir, prog, a, parsed, loaded, netns);
    if ExecutorCalls(run.calls) > 0 {
      if !Eligible(a, parsed, loaded) {
        NoExecutorWhenIneligible(hookSet, binDir, prog, a, parsed, loaded, netns);
      }
      RedirectBuiltIffEligible(hookSet, binDir, prog, a, parsed, loaded, netns);
    }
  }

  /** A pod that is not eligible (see `Eligible`) causes no executor call. */
  lemma NoExecutorWhenIneligible(hookSet: bool, binDir: string, prog: string, a: Answers,
                                 parsed: Result<PluginConf, Error>, loaded: Result<K8sArgs, Error>, netns: string)
    requires !Eligible(a, parsed, loaded)
    ensures ExecutorCalls(AddRun(hookSet, binDir, prog, a, parsed, loaded, netns).calls) == 0
  {
    var run := AddRun(hookSet, binDir, prog, a, parsed, loaded, netns);
    if parsed.Success? && loaded.Success? {
      var conf, args := parsed.value, loaded.value;
      var front := PodRun(hookSet, Override(binDir, conf.kubernetes.cniBinDir), Override(prog, conf.kubernetes.iptablesScript),
                          a, conf, args.podName, args.podNamespace, netns).calls;
      NoExecutorCalls(front);
      if run.calls != front {
        ExecutorCallsAppend(front, [AddResult(conf)]);
        NoExecutorCalls([AddResult(conf)]);
      }
    }
  }

  /** The inject annotation excludes a pod exactly when its value is one of
      Go's six spellings of false. */
  lemma InjectDisabledIff(annotations: map<string, string>)
    ensures InjectDisabled(annotations) <==>
            InjectAnnotationKey in annotations && annotations[InjectAnnotationKey] in FalseSpellings
  {
  }

  /** A missing key, a true value or an unparsable value never excludes. */
  lemma InjectAnnotationIsLenient(annotations: map<string, string>, v: string)
    requires ParseBool(v) != Some(false)
    ensures !InjectDisabled(annotations - {InjectAnnotationKey})
    ensures !InjectDisabled(annotations[InjectAnnotationKey := v])
    ensures !InjectDisabled(annotations[InjectAnnotationKey := "not-a-bool"])
    ensures !InjectDisabled(annotations[InjectAnnotationKey := "true"])
  {
  }

  /** Only the presence of the sidecar status key matters, never its value; its
      absence alone excludes the pod. */
  lemma SidecarStatusPresenceOnly(annotations: map<string, string>, v: string, w: string)
    ensures ExcludedByAnnotations(annotations[SidecarStatusKey := v]) == ExcludedByAnnotations(annotations[SidecarStatusKey := w])
    ensures ExcludedByAnnotations(annotations - {SidecarStatusKey})
    ensures ExcludedByAnnotations(annotations[SidecarStatusKey := v]) <==> InjectDisabled(annotations)
  {
  }

  // ---------------------------------------------------------------------------
  // The redirect paths

  /** For an eligible pod: a failing `NewRedirect` is returned and nothing runs;
      otherwise the hook alone runs when it is set, with the netns and ports, and
      its error is dropped; otherwise the script runs and its error is returned. */
  lemma RedirectPaths(hookSet: bool, binDir: string, prog: string, a: Answers,
                      conf: PluginConf, args: K8sArgs, netns: string)
    requires Eligible(a, Success(conf), Success(args))
    ensures var client := a.newKubeClient(conf).value;
            var pod := a.getKubePodInfo(client, args.podName, args.podNamespace).value;
            var built := [NewKubeClient(conf), GetKubePodInfo(client, args.podName, args.podNamespace),
                          NewRedirect(pod.proxyUID, pod.proxyGID, pod.ports, pod.annotations)];
            var redirect := a.newRedirect(pod.proxyUID, pod.proxyGID, pod.ports, pod.annotations);
            var dir := Override(binDir, conf.kubernetes.cniBinDir);
            var script := Override(prog, conf.kubernetes.iptablesScript);
            var printed := a.printResult(SelectResult(conf.prevResult), conf.cniVersion);
            var run := AddRun(hookSet, binDir, prog, a, Success(conf), Success(args), netns);
            && (redirect.Failure? ==> run == Run(built, Some(redirect.error)))
            && (redirect.Success? && hookSet ==>
                  run == Run(built + [SetupRedirectHook(netns, pod.ports), AddResult(conf)], printed))
            && (redirect.Success? && !hookSet && a.doRedirect(redirect.value, netns, dir, script).Some? ==>
                  run == Run(built + [DoRedirect(redirect.value, netns, dir, script)], a.doRedirect(redirect.value, netns, dir, script)))
            && (redirect.Success? && !hookSet && a.doRedirect(redirect.value, netns, dir, script).None? ==>
                  run == Run(built + [DoRedirect(redirect.value, netns, dir, script), AddResult(conf)], printed))
  {
  }

  /** At most one executor runs per ADD, on every input. */
  lemma AtMostOneExecutor(hookSet: bool, binDir: string, prog: string, a: Answers,
                          parsed: Result<PluginConf, Error>, loaded: Result<K8sArgs, Error>, netns: string)
    ensures ExecutorCalls(AddRun(hookSet, binDir, prog, a, parsed, loaded, netns).calls) <= 1
  {
    if !Eligible(a, parsed, loaded) {
      NoExecutorWhenIneligible(hookSet, binDir, prog, a, parsed, loaded, netns);
    } else {
      var conf, args := parsed.value, loaded.value;
      RedirectPaths(hookSet, binDir, prog, a, conf, args, netns);
      var client := a.newKubeClient(conf).value;
      var pod := a.getKubePodInfo(client, args.podName, args.podNamespace).value;
      var built := [NewKubeClient(conf), GetKubePodInfo(client, args.podName, args.podNamespace),
                    NewRedirect(pod.proxyUID, pod.proxyGID, pod.ports, pod.annotations)];
      NoExecutorCalls(built);
      var run := AddRun(hookSet, binDir, prog, a, parsed, loaded, netns);
      if run.calls != built {
        var tail := run.calls[|built|..];
        assert run.calls == built + tail;
        ExecutorCallsAppend(built, tail);
        assert tail == [tail[0]] + tail[1..];
        ExecutorCallsAppend([tail[0]], tail[1..]);
        NoExecutorCalls([tail[0]][1..]);
        NoExecutorCalls(tail[1..]);
      }
    }
  }

  // ---------------------------------------------------------------------------
  // The returned result

  /** Whenever ADD succeeds, its last call printed the previous result, or a
      fresh one, whatever was decided about the pod; and whatever printing
      answered is what ADD returned. */
  lemma ResultIndependentOfDecision(hookSet: bool, binDir: string, prog: string, a: Answers,
                                    parsed: Result<PluginConf, Error>, loaded: Result<K8sArgs, Error>, netns: string)
    ensures var run := AddRun(hookSet, binDir, prog, a, parsed, loaded, netns);
            run.err.None? ==>
              && parsed.Success? && |run.calls| > 0
              && run.calls[|run.calls| - 1] == AddResult(parsed.value)
              && (parsed.value.prevResult.Some? ==> run.calls[|run.calls| - 1].result == parsed.value.prevResult.value)
              && (parsed.value.prevResult.None? ==> run.calls[|run.calls| - 1].result.cniVersion == ImplementedSpecVersion)
    ensures var run := AddRun(hookSet, binDir, prog, a, parsed, loaded, netns);
            forall i :: 0 <= i < |run.calls| && run.calls[i].PrintResult? ==>
              && i == |run.calls| - 1 && run.calls[i] == AddResult(parsed.value)
              && run.err == a.printResult(SelectResult(parsed.value.prevResult), parsed.value.cniVersion)
  {
  }

  // ---------------------------------------------------------------------------
  // Two end-to-end cases

  /** A pod with an application container and the proxy, a status annotation and
      port 9080, with every collaborator succeeding and no hook installed. */
  function SamplePod(): PodInfo
  {
    PodInfo(true, ["app", "istio-proxy"], map[], map[SidecarStatusKey := "{}"], ["9080"], 1337, 1337)
  }

  function SampleAnswers(): Answers
  {
    Answers(
      conf => Success(Client(0)),
      (client, name, ns) => Success(SamplePod()),
      (uid, gid, ports, annotations) => Success(Redirect(0)),
      (netns, ports) => None,
      (redirect, netns, dir, script) => None,
      (result, version) => None)
  }

  function SampleConf(excludeNamespaces: seq<string>): PluginConf
  {
    PluginConf("0.3.1", "istio-cni", "istio-cni", None, "info",
               Kubernetes("", "", "", excludeNamespaces, "", ""))
  }

  /** The sample pod is redirected: `NewRedirect` gets its identity and ports in
      order, and the script runs exactly once in its netns. */
  lemma SamplePodIsRedirected()
    ensures var run := AddRun(false, "/opt/cni/bin", "istio-iptables.sh", SampleAnswers(),
                              Success(SampleConf(["kube-system"])), Success(K8sArgs("details", "default", "")), "/var/run/netns/1");
            && run.err.None?
            && run.calls[2] == NewRedirect(1337, 1337, ["9080"], map[SidecarStatusKey := "{}"])
            && run.calls[3] == DoRedirect(Redirect(0), "/var/run/netns/1", "/opt/cni/bin", "istio-iptables.sh")
            && ExecutorCalls(run.calls) == 1
  {
  }

  /** The same pod in the excluded `kube-system` namespace: ADD succeeds and no
      executor runs. */
  lemma KubeSystemPodIsSkipped()
    ensures var run := AddRun(false, "/opt/cni/bin", "istio-iptables.sh", SampleAnswers(),
                              Success(SampleConf(["kube-system"])), Success(K8sArgs("coredns", "kube-system", "")), "/var/run/netns/2");
            run.err.None? && run.calls == [AddResult(SampleConf(["kube-system"]))] && ExecutorCalls(run.calls) == 0
  {
  }
}
