/** The values cmdAdd works on: the parsed plugin configuration, the CNI
    arguments, the pod facts returned by the metadata lookup and the CNI result. */
module Cni {
  import opened Wrappers

  /** A Go `error`; only its message is observable. */
  datatype Error = Error(message: string)

  /** `current.ImplementedSpecVersion` of the CNI library release 0.6. */
  const ImplementedSpecVersion: string := "0.3.1"

  /** The annotation keys the eligibility decision reads. */
  const InjectAnnotationKey: string := "sidecar.istio.io/inject"
  const SidecarStatusKey: string := "sidecar.istio.io/status"

  /** `current.Result`: the CNI result passed along the plugin chain. */
  datatype CniResult = CniResult(
    cniVersion: string,
    interfaces: seq<string>,
    ips: seq<string>,
    routes: seq<string>,
    dns: seq<string>)

  /** The `kubernetes` section of the plugin configuration. */
  datatype Kubernetes = Kubernetes(
    k8sApiRoot: string,
    kubeconfig: string,
    nodeName: string,
    excludeNamespaces: seq<string>,
    cniBinDir: string,
    iptablesScript: string)

  /** `PluginConf` after `parseConfig`: `prevResult` is already converted to the current version. */
  datatype PluginConf = PluginConf(
    cniVersion: string,
    name: string,
    pluginType: string,
    prevResult: Option<CniResult>,
    logLevel: string,
    kubernetes: Kubernetes)

  /** `K8sArgs` after `types.LoadArgs`: empty strings when the runtime passed no Kubernetes data. */
  datatype K8sArgs = K8sArgs(podName: string, podNamespace: string, podInfraContainerId: string)

  /** What `getKubePodInfo` reports about one pod. */
  datatype PodInfo = PodInfo(
    hasProxy: bool,
    containers: seq<string>,
    labels: map<string, string>,
    annotations: map<string, string>,
    ports: seq<string>,
    proxyUID: int,
    proxyGID: int)

  /** The result printed at the end of a successful ADD (main.go lines 242-250). */
  function SelectResult(prevResult: Option<CniResult>): (r: CniResult)
  {
    if prevResult.None? then CniResult(ImplementedSpecVersion, [], [], [], []) else prevResult.value
  }

  /** A previous result is passed through untouched; without one, the fresh result
      carries the implemented version and nothing else. */
  lemma SelectResultPassesThrough(prevResult: Option<CniResult>)
    ensures prevResult.Some? ==> SelectResult(prevResult) == prevResult.value
    ensures prevResult.None? ==> SelectResult(prevResult).cniVersion == ImplementedSpecVersion
    ensures prevResult.None? ==> SelectResult(prevResult).interfaces == [] && SelectResult(prevResult).ips == []
    ensures prevResult.None? ==> SelectResult(prevResult).routes == [] && SelectResult(prevResult).dns == []
  {
  }

  /** The rule for `nsSetupBinDir` and `nsSetupProg`: a configured value replaces
      the current one only when it is non-empty. */
  function Override(current: string, configured: string): (r: string)
    ensures r == configured || r == current
    ensures r == configured <==> configured != "" || current == configured
  {
    if configured != "" then configured else current
  }

  /** A replacement sticks: a later configuration that leaves the field empty keeps it. */
  lemma OverrideSticks(current: string, first: string, second: string)
    requires first != ""
    ensures Override(Override(current, first), second) == if second != "" then second else first
  {
  }
}
