/**
 * The serving extension of the OpenShift Knative operator: its `Reconcile`
 * turns a partially specified KnativeServing resource into the resolved one,
 * in place, and labels the resource's namespace for cluster monitoring. The
 * steps are the minimum-Kubernetes-version gate, the required-namespace guard,
 * image overrides from the environment, high-availability, certificate, domain
 * and network defaults, the webhook's memory limit, ingress-backend self-healing,
 * the logging URL template and the monitoring precedence.
 *
 * What the cluster and the environment say (server version, cluster domain,
 * logging route, required namespace, `IMAGE_*` variables, monitoring toggle)
 * arrives as ClusterFacts; the extension's own constants as OperatorConstants.
 */
module ServingExtension {
  import opened Wrappers
  import KubeVersion

  // ---------------------------------------------------------------------------
  // Configuration sections (`v1alpha1.ConfigMapData`)

  /** Config-map name to key to value. */
  type ConfigMapData = map<string, map<string, string>>

  /** The value of key in section, if both are present. */
  function Get(c: ConfigMapData, section: string, key: string): Option<string>
  {
    if section in c && key in c[section] then Some(c[section][key]) else None
  }

  /** `common.Configure`: sets key in section, creating the section when needed. */
  function Configure(c: ConfigMapData, section: string, key: string, value: string): (r: ConfigMapData)
    ensures Get(r, section, key) == Some(value)
    ensures forall s, k :: s != section || k != key ==> Get(r, s, k) == Get(c, s, k)
  {
    var entries := if section in c then c[section] else map[];
    c[section := entries[key := value]]
  }

  /** `common.ConfigureIfUnset`: sets key in section only when it is not there yet. */
  function ConfigureIfUnset(c: ConfigMapData, section: string, key: string, value: string): (r: ConfigMapData)
    ensures Get(c, section, key).Some? ==> r == c
    ensures Get(c, section, key).None? ==> Get(r, section, key) == Some(value)
    ensures forall s, k :: s != section || k != key ==> Get(r, s, k) == Get(c, s, k)
  {
    if Get(c, section, key).Some? then c else Configure(c, section, key, value)
  }

  // ---------------------------------------------------------------------------
  // The KnativeServing resource

  datatype HighAvailability = HighAvailability(replicas: int)

  /** Container images: the default image and per-image overrides. */
  datatype Registry = Registry(defaultImage: string, override: map<string, string>)

  /** A `resource.Quantity`, kept as its text. */
  datatype Quantity = Quantity(text: string)

  /** Resource limits and requests for one container, by resource name. */
  datatype ResourceRequirementsOverride =
    ResourceRequirementsOverride(container: string, limits: map<string, Quantity>, requests: map<string, Quantity>)

  datatype CustomCerts = CustomCerts(certType: string, name: string)

  datatype KourierConfig = KourierConfig(enabled: bool, serviceType: string)
  datatype IstioConfig = IstioConfig(enabled: bool)
  datatype ContourConfig = ContourConfig(enabled: bool)

  /** The ingress block: one sub-spec per backend. */
  datatype IngressConfigs = IngressConfigs(istio: IstioConfig, kourier: KourierConfig, contour: ContourConfig)

  datatype ServingSpec = ServingSpec(
    highAvailability: Option<HighAvailability>,
    config: ConfigMapData,
    registry: Registry,
    resources: seq<ResourceRequirementsOverride>,
    controllerCustomCerts: CustomCerts,
    ingress: Option<IngressConfigs>)

  /** Why the installation was marked failed; Message gives the text the condition carries. */
  datatype InstallFailure =
    | VersionRejected(error: KubeVersion.VersionError)
    | WrongNamespace(required: string)

  /** The two status conditions the extension reads or writes. */
  datatype Status = Status(dependenciesInstalled: bool, installFailed: Option<InstallFailure>)

  /** A KnativeServing resource, which Reconcile updates in place. */
  class KnativeServing {
    var namespace: string
    var spec: ServingSpec
    var status: Status

    constructor (namespace: string, spec: ServingSpec, status: Status)
      ensures this.namespace == namespace && this.spec == spec && this.status == status
    {
      this.namespace := namespace;
      this.spec := spec;
      this.status := status;
    }
  }

  /** The namespace object whose monitoring label Reconcile writes. */
  class Namespace {
    const name: string
    var labels: map<string, string>

    constructor (name: string, labels: map<string, string>)
      ensures this.name == name && this.labels == labels
    {
      this.name := name;
      this.labels := labels;
    }
  }

  // ---------------------------------------------------------------------------
  // Inputs

  /** What the cluster and the process environment report. */
  datatype ClusterFacts = ClusterFacts(
    serverVersion: Result<string, string>,  // the discovery client's GitVersion, or its error
    clusterDomain: string,                   // the domain of the cluster's `cluster` ingress config
    loggingHost: Option<string>,             // the host of the openshift-logging/kibana route
    requiredNamespace: string,               // the namespace KnativeServing must live in
    images: map<string, string>,             // the `IMAGE_<name>` variables, by name
    monitoringToggle: Option<bool>)          // the monitoring toggle, when it is set

  /** The extension's constants whose values are not part of this model. */
  datatype OperatorConstants = OperatorConstants(
    minimumVersion: string,
    defaultDomainTemplate: string,
    kourierIngressClass: string,
    istioIngressClass: string,
    contourIngressClass: string,
    observabilityConfigMap: string,
    observabilityBackendKey: string,
    loggingUrlTemplate: string -> string,   // fmt.Sprintf(loggingURLTemplate, host)
    enableMonitoringLabel: string,
    webhookMemory: Quantity,
    versionFailureMessage: KubeVersion.VersionError -> string)

  /** The observability section is none of the sections the defaults write by name. */
  predicate DistinctSections(k: OperatorConstants)
  {
    k.observabilityConfigMap != "deployment" && k.observabilityConfigMap != "domain" &&
    k.observabilityConfigMap != "network" && k.observabilityBackendKey != LoggingTemplateKey
  }

  const LoggingTemplateKey := "logging.revision-url-template"
  const DisabledBackend := "none"
  const ClusterIP := "ClusterIP"

  /** `strconv.FormatBool`. */
  function FormatBool(b: bool): string
  {
    if b then "true" else "false"
  }

  // ---------------------------------------------------------------------------
  // Registry and configuration defaults

  /** The image named by `IMAGE_<name>`, or "" when that variable is not set. */
  function Image(images: map<string, string>, name: string): string
  {
    if name in images then images[name] else ""
  }

  /**
   * Image overrides: every `IMAGE_*` value overwrites the user's entry of the
   * same name, the default image is `IMAGE_default`, and the queue-proxy image
   * becomes the deployment's `queueSidecarImage`.
   */
  function WithImages(s: ServingSpec, images: map<string, string>): ServingSpec
  {
    s.(registry := Registry(Image(images, "default"), s.registry.override + images),
       config := Configure(s.config, "deployment", "queueSidecarImage", Image(images, "queue-proxy")))
  }

  /** No high-availability block, or zero replicas, gives two replicas. */
  function WithHighAvailability(s: ServingSpec): ServingSpec
  {
    if s.highAvailability.None? || s.highAvailability.value.replicas == 0
    then s.(highAvailability := Some(HighAvailability(2)))
    else s
  }

  /** The cluster's domain becomes the domain section's (only) serving domain key. */
  function WithDomain(s: ServingSpec, domain: string): ServingSpec
  {
    s.(config := Configure(s.config, "domain", domain, ""))
  }

  /** The position of the first override for the container, or |rs| when there is none. */
  function FirstOverrideFor(rs: seq<ResourceRequirementsOverride>, container: string): (i: nat)
    ensures i <= |rs|
    ensures forall j :: 0 <= j < i ==> rs[j].container != container
    ensures i < |rs| ==> rs[i].container == container
    decreases |rs|
  {
    if rs == [] || rs[0].container == container then 0 else 1 + FirstOverrideFor(rs[1..], container)
  }

  /**
   * `common.EnsureContainerMemoryLimit`: the first override for the container
   * gets the memory limit, everything else in it and every other override kept;
   * without one, an override holding only that limit is appended.
   */
  function EnsureContainerMemoryLimit(rs: seq<ResourceRequirementsOverride>, container: string, memory: Quantity)
    : (r: seq<ResourceRequirementsOverride>)
    ensures FirstOverrideFor(rs, container) < |rs| ==>
      r == rs[FirstOverrideFor(rs, container) :=
                rs[FirstOverrideFor(rs, container)].(limits := rs[FirstOverrideFor(rs, container)].limits["memory" := memory])]
    ensures FirstOverrideFor(rs, container) == |rs| ==>
      r == rs + [ResourceRequirementsOverride(container, map["memory" := memory], map[])]
    decreases |rs|
  {
    if rs == [] then [ResourceRequirementsOverride(container, map["memory" := memory], map[])]
    else if rs[0].container == container then [rs[0].(limits := rs[0].limits["memory" := memory])] + rs[1..]
    else
      var rest := EnsureContainerMemoryLimit(rs[1..], container, memory);
      assert [rs[0]] + rs[1..] == rs;
      [rs[0]] + rest
  }

  /** The webhook gets the operator's memory limit. */
  function WithWebhookMemory(s: ServingSpec, memory: Quantity): ServingSpec
  {
    s.(resources := EnsureContainerMemoryLimit(s.resources, "webhook", memory))
  }

  /** Unset controller certificates default to the service-CA config map. */
  function WithCustomCerts(s: ServingSpec): ServingSpec
  {
    if s.controllerCustomCerts == CustomCerts("", "")
    then s.(controllerCustomCerts := CustomCerts("ConfigMap", "config-service-ca"))
    else s
  }

  /** Network keys the user has not set get the operator's defaults. */
  function WithNetworkDefaults(s: ServingSpec, k: OperatorConstants): ServingSpec
  {
    var c1 := ConfigureIfUnset(s.config, "network", "domainTemplate", k.defaultDomainTemplate);
    var c2 := ConfigureIfUnset(c1, "network", "autocreateClusterDomainClaims", "true");
    var c3 := ConfigureIfUnset(c2, "network", "defaultExternalScheme", "https");
    s.(config := c3)
  }

  // ---------------------------------------------------------------------------
  // Ingress backends

  datatype Backend = Kourier | Istio | Contour

  function EnabledCount(i: IngressConfigs): nat
  {
    (if i.istio.enabled then 1 else 0) + (if i.kourier.enabled then 1 else 0) + (if i.contour.enabled then 1 else 0)
  }

  /** The one enabled backend; None when no backend or several are enabled. */
  function ActiveBackend(i: IngressConfigs): (b: Option<Backend>)
    ensures b.Some? <==> EnabledCount(i) == 1
    ensures b == Some(Kourier) ==> i.kourier.enabled
    ensures b == Some(Istio) ==> i.istio.enabled
    ensures b == Some(Contour) ==> i.contour.enabled
  {
    if EnabledCount(i) != 1 then None
    else if i.istio.enabled then Some(Istio)
    else if i.kourier.enabled then Some(Kourier)
    else Some(Contour)
  }

  const NoIngress := IngressConfigs(IstioConfig(false), KourierConfig(false, ""), ContourConfig(false))

  /**
   * Ingress self-healing: a missing block, or a block with no backend enabled,
   * enables Kourier (keeping its service type); an enabled Kourier without a
   * service type gets ClusterIP.
   */
  function ResolveIngress(ingress: Option<IngressConfigs>): (r: IngressConfigs)
    ensures EnabledCount(r) >= 1
    ensures r.istio == (if ingress.None? then NoIngress else ingress.value).istio
    ensures r.contour == (if ingress.None? then NoIngress else ingress.value).contour
  {
    var i := if ingress.None? then NoIngress else ingress.value;
    var healed := if EnabledCount(i) == 0 then i.(kourier := i.kourier.(enabled := true)) else i;
    if healed.kourier.enabled && healed.kourier.serviceType == ""
    then healed.(kourier := healed.kourier.(serviceType := ClusterIP))
    else healed
  }

  function IngressClass(b: Backend, k: OperatorConstants): string
  {
    match b
    case Kourier => k.kourierIngressClass
    case Istio => k.istioIngressClass
    case Contour => k.contourIngressClass
  }

  /**
   * The resolved ingress block; the network ingress class of the one enabled
   * backend unless the user set one; and, when that backend is Istio, the
   * disabled observability backend unless the user set one.
   */
  function WithIngress(s: ServingSpec, k: OperatorConstants): ServingSpec
  {
    var i := ResolveIngress(s.ingress);
    var c1 := match ActiveBackend(i)
      case None => s.config
      case Some(b) => ConfigureIfUnset(s.config, "network", "ingress.class", IngressClass(b, k));
    var c2 := if ActiveBackend(i) == Some(Istio)
      then ConfigureIfUnset(c1, k.observabilityConfigMap, k.observabilityBackendKey, DisabledBackend)
      else c1;
    s.(ingress := Some(i), config := c2)
  }

  // ---------------------------------------------------------------------------
  // Logging and monitoring

  /** An existing logging route's host is templated into the revision URL template unless one is set. */
  function WithLoggingTemplate(s: ServingSpec, loggingHost: Option<string>, k: OperatorConstants): ServingSpec
  {
    match loggingHost
    case None => s
    case Some(host) =>
      s.(config := ConfigureIfUnset(s.config, k.observabilityConfigMap, LoggingTemplateKey, k.loggingUrlTemplate(host)))
  }

  /**
   * Whether monitoring is enabled: an explicit observability backend decides
   * (disabled iff it is "none"); otherwise the toggle, enabled when unset.
   */
  function MonitoringEnabled(config: ConfigMapData, toggle: Option<bool>, k: OperatorConstants): bool
  {
    match Get(config, k.observabilityConfigMap, k.observabilityBackendKey)
    case Some(backend) => backend != DisabledBackend
    case None => toggle != Some(false)
  }

  /** A toggle set to false with no explicit backend writes the disabled backend. */
  function WithMonitoring(s: ServingSpec, toggle: Option<bool>, k: OperatorConstants): ServingSpec
  {
    if Get(s.config, k.observabilityConfigMap, k.observabilityBackendKey).None? && toggle == Some(false)
    then s.(config := Configure(s.config, k.observabilityConfigMap, k.observabilityBackendKey, DisabledBackend))
    else s
  }

  // ---------------------------------------------------------------------------
  // Reconcile

  /** The spec Reconcile leaves behind, step by step. */
  function ResolvedSpec(s: ServingSpec, f: ClusterFacts, k: OperatorConstants): ServingSpec
  {
    WithMonitoring(PreMonitoringSpec(s, f, k), f.monitoringToggle, k)
  }

  /** The spec the monitoring step sees: every default before it, in order. */
  function PreMonitoringSpec(s: ServingSpec, f: ClusterFacts, k: OperatorConstants): ServingSpec
  {
    WithLoggingTemplate(WithIngress(DefaultedSpec(s, f, k), k), f.loggingHost, k)
  }

  /** The images, high-availability, domain, memory, certificate and network defaults, in order. */
  function DefaultedSpec(s: ServingSpec, f: ClusterFacts, k: OperatorConstants): ServingSpec
  {
    var s1 := WithImages(s, f.images);
    var s2 := WithHighAvailability(s1);
    var s3 := WithDomain(s2, f.clusterDomain);
    var s4 := WithWebhookMemory(s3, k.webhookMemory);
    var s5 := WithCustomCerts(s4);
    WithNetworkDefaults(s5, k)
  }

  /** The message of a failed installation; the namespace guard quotes the name as `%q` does for a plain name. */
  function Message(failure: InstallFailure, k: OperatorConstants): string
  {
    match failure
    case VersionRejected(e) => k.versionFailureMessage(e)
    case WrongNamespace(required) => "Knative Serving must be installed into the namespace \"" + required + "\""
  }

  /** The status after the version gate and the namespace guard; the latter's failure wins. */
  function ResolvedStatus(st: Status, namespace: string, f: ClusterFacts, k: OperatorConstants): Status
  {
    var st1 := match KubeVersion.CheckMinimumVersion(f.serverVersion, k.minimumVersion)
      case None => st
      case Some(e) => st.(installFailed := Some(VersionRejected(e)));
    if namespace != f.requiredNamespace then st1.(installFailed := Some(WrongNamespace(f.requiredNamespace))) else st1
  }

  /** The version gate and the namespace guard record their failures in the status. */
  method RecordGateFailures(ks: KnativeServing, f: ClusterFacts, k: OperatorConstants)
    modifies ks
    ensures ks.status == ResolvedStatus(old(ks.status), ks.namespace, f, k)
    ensures ks.namespace == old(ks.namespace) && ks.spec == old(ks.spec)
  {
    var versionError := KubeVersion.CheckMinimumVersion(f.serverVersion, k.minimumVersion);
    if versionError.Some? {
      ks.status := ks.status.(installFailed := Some(VersionRejected(versionError.value)));
    }
    if ks.namespace != f.requiredNamespace {
      ks.status := ks.status.(installFailed := Some(WrongNamespace(f.requiredNamespace)));
    }
  }

  /** The configuration defaults, applied to the spec in place. */
  method ApplyDefaults(ks: KnativeServing, f: ClusterFacts, k: OperatorConstants)
    modifies ks
    ensures ks.spec == DefaultedSpec(old(ks.spec), f, k)
    ensures ks.namespace == old(ks.namespace) && ks.status == old(ks.status)
  {
    var spec := ks.spec;
    spec := WithImages(spec, f.images);
    spec := WithHighAvailability(spec);
    spec := WithDomain(spec, f.clusterDomain);
    spec := WithWebhookMemory(spec, k.webhookMemory);
    spec := WithCustomCerts(spec);
    spec := WithNetworkDefaults(spec, k);
    ks.spec := spec;
  }

  /** The ingress resolution and the logging template, applied to the spec in place. */
  method ApplyIngressAndLogging(ks: KnativeServing, loggingHost: Option<string>, k: OperatorConstants)
    modifies ks
    ensures ks.spec == WithLoggingTemplate(WithIngress(old(ks.spec), k), loggingHost, k)
    ensures ks.namespace == old(ks.namespace) && ks.status == old(ks.status)
  {
    ks.spec := WithIngress(ks.spec, k);
    ks.spec := WithLoggingTemplate(ks.spec, loggingHost, k);
  }

  /** The monitoring decision: the namespace label, and the disabled backend when the toggle is off. */
  method ApplyMonitoring(ks: KnativeServing, ns: Namespace, toggle: Option<bool>, k: OperatorConstants)
    modifies ks, ns
    ensures ks.spec == WithMonitoring(old(ks.spec), toggle, k)
    ensures ns.labels == old(ns.labels)[k.enableMonitoringLabel := FormatBool(MonitoringEnabled(old(ks.spec).config, toggle, k))]
    ensures ks.namespace == old(ks.namespace) && ks.status == old(ks.status)
  {
    var enabled := MonitoringEnabled(ks.spec.config, toggle, k);
    ks.spec := WithMonitoring(ks.spec, toggle, k);
    ns.labels := ns.labels[k.enableMonitoringLabel := FormatBool(enabled)];
  }

  /**
   * `extension.Reconcile`: resolves ks in place and writes the monitoring label
   * onto ns. Version and namespace failures are recorded in the status; the
   * defaults are applied either way.
   */
  method Reconcile(ks: KnativeServing, ns: Namespace, f: ClusterFacts, k: OperatorConstants)
    modifies ks, ns
    ensures ks.namespace == old(ks.namespace)
    ensures ks.spec == ResolvedSpec(old(ks.spec), f, k)
    ensures ks.status == ResolvedStatus(old(ks.status), old(ks.namespace), f, k)
    ensures ns.labels ==
      old(ns.labels)[k.enableMonitoringLabel :=
        FormatBool(MonitoringEnabled(PreMonitoringSpec(old(ks.spec), f, k).config, f.monitoringToggle, k))]
  {
    RecordGateFailures(ks, f, k);
    ApplyDefaults(ks, f, k);
    ApplyIngressAndLogging(ks, f.loggingHost, k);
    ApplyMonitoring(ks, ns, f.monitoringToggle, k);
  }
}
