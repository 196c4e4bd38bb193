/**
 * Properties of the serving extension's reconciliation, for every spec,
 * every set of cluster facts and every choice of the operator's constants
 * that keeps the observability section apart from the sections written by name.
 */
module ServingProperties {
  import opened Wrappers
  import KubeVersion
  import opened ServingExtension

  // ---------------------------------------------------------------------------
  // Configuration sections

  /** Configuring a key to the value it already has changes nothing. */
  lemma ConfigureSame(c: ConfigMapData, section: string, key: string, value: string)
    requires Get(c, section, key) == Some(value)
    ensures Configure(c, section, key, value) == c
  {
    assert c[section][key := value] == c[section];
  }

  /** Configuring a key twice leaves what configuring it once leaves. */
  lemma {:induction false} ConfigureIdempotent(c: ConfigMapData, section: string, key: string, value: string)
    ensures Configure(Configure(c, section, key, value), section, key, value) == Configure(c, section, key, value)
  {
    ConfigureSame(Configure(c, section, key, value), section, key, value);
  }

  /** A user's value is never overwritten by ConfigureIfUnset. */
  lemma ConfigureIfUnsetKeepsUser(c: ConfigMapData, section: string, key: string, value: string)
    requires Get(c, section, key).Some?
    ensures Get(ConfigureIfUnset(c, section, key, value), section, key) == Get(c, section, key)
  {
  }

  // ---------------------------------------------------------------------------
  // Ingress backends

  const HealedIngress := IngressConfigs(IstioConfig(false), KourierConfig(true, ClusterIP), ContourConfig(false))

  /** A missing ingress block resolves to Kourier alone, enabled, with ClusterIP. */
  lemma NilIngressHeals()
    ensures ResolveIngress(None) == HealedIngress
    ensures ActiveBackend(ResolveIngress(None)) == Some(Kourier)
  {
  }

  /**
   * A block with no backend enabled self-heals to Kourier, enabled, keeping a
   * service type the user chose and ClusterIP otherwise; the other backends
   * stay disabled.
   */
  lemma DisabledIngressHeals(i: IngressConfigs)
    requires EnabledCount(i) == 0
    ensures ResolveIngress(Some(i)) ==
      IngressConfigs(i.istio, KourierConfig(true, if i.kourier.serviceType == "" then ClusterIP else i.kourier.serviceType), i.contour)
    ensures ActiveBackend(ResolveIngress(Some(i))) == Some(Kourier)
  {
  }

  /** With one backend enabled, that backend stays the only one, untouched except Kourier's default service type. */
  lemma SingleBackendKept(i: IngressConfigs)
    requires EnabledCount(i) == 1
    ensures ActiveBackend(ResolveIngress(Some(i))) == ActiveBackend(i)
    ensures ResolveIngress(Some(i)).istio == i.istio && ResolveIngress(Some(i)).contour == i.contour
    ensures ResolveIngress(Some(i)).kourier ==
      (if i.kourier.enabled && i.kourier.serviceType == "" then i.kourier.(serviceType := ClusterIP) else i.kourier)
  {
  }

  /** At most one enabled backend in the block gives exactly one after resolution. */
  lemma ExactlyOneBackend(ingress: Option<IngressConfigs>)
    requires ingress.Some? ==> EnabledCount(ingress.value) <= 1
    ensures EnabledCount(ResolveIngress(ingress)) == 1
    ensures ActiveBackend(ResolveIngress(ingress)).Some?
  {
  }

  /** An enabled Kourier always has a service type after resolution. */
  lemma KourierServiceTypeSet(ingress: Option<IngressConfigs>)
    ensures ResolveIngress(ingress).kourier.enabled ==> ResolveIngress(ingress).kourier.serviceType != ""
  {
  }

  /** Resolving a resolved block changes nothing. */
  lemma ResolveIngressIdempotent(ingress: Option<IngressConfigs>)
    ensures ResolveIngress(Some(ResolveIngress(ingress))) == ResolveIngress(ingress)
  {
  }

  // ---------------------------------------------------------------------------
  // The resource-override list

  /** A first override found at i is found there in any list that agrees with it up to i. */
  lemma {:induction false} FirstOverrideUnique(r: seq<ResourceRequirementsOverride>, container: string, i: nat)
    requires i < |r| && r[i].container == container
    requires forall j :: 0 <= j < i ==> r[j].container != container
    ensures FirstOverrideFor(r, container) == i
    decreases i
  {
    if i > 0 {
      assert r[0].container != container;
      FirstOverrideUnique(r[1..], container, i - 1);
    }
  }

  /**
   * After ensuring the limit, the container's first override sits where it
   * was (or at the end), holds the memory limit and keeps its requests and its
   * other limits; every other override is kept.
   */
  lemma MemoryLimitEnsured(rs: seq<ResourceRequirementsOverride>, container: string, memory: Quantity)
    ensures var r := EnsureContainerMemoryLimit(rs, container, memory);
      var i := FirstOverrideFor(rs, container);
      FirstOverrideFor(r, container) == i && i < |r| &&
      |r| == (if i < |rs| then |rs| else |rs| + 1) &&
      r[i].container == container && "memory" in r[i].limits && r[i].limits["memory"] == memory &&
      (forall j :: 0 <= j < |rs| && j != i ==> r[j] == rs[j]) &&
      (i < |rs| ==> r[i].requests == rs[i].requests) &&
      (i < |rs| ==> forall name :: name in rs[i].limits && name != "memory" ==>
                      name in r[i].limits && r[i].limits[name] == rs[i].limits[name]) &&
      (i == |rs| ==> r[i].limits.Keys == {"memory"} && r[i].requests == map[])
  {
    var r := EnsureContainerMemoryLimit(rs, container, memory);
    FirstOverrideUnique(r, container, FirstOverrideFor(rs, container));
  }

  /** Ensuring the memory limit a second time changes nothing. */
  lemma {:induction false} EnsureMemoryIdempotent(rs: seq<ResourceRequirementsOverride>, container: string, memory: Quantity)
    ensures EnsureContainerMemoryLimit(EnsureContainerMemoryLimit(rs, container, memory), container, memory) ==
            EnsureContainerMemoryLimit(rs, container, memory)
  {
    var r := EnsureContainerMemoryLimit(rs, container, memory);
    var i := FirstOverrideFor(rs, container);
    FirstOverrideUnique(r, container, i);
    assert r[i].limits["memory" := memory] == r[i].limits;
    assert r[i := r[i].(limits := r[i].limits["memory" := memory])] == r;
  }

  // ---------------------------------------------------------------------------
  // The resolved configuration, step by step

  /** The user's value of key in section, or fallback when the user set none. */
  function UserOr(c: ConfigMapData, section: string, key: string, fallback: string): string
  {
    match Get(c, section, key)
    case Some(v) => v
    case None => fallback
  }

  /** The ingress class of the one backend the resolved ingress block enables, if only one is. */
  function BackendClass(ingress: Option<IngressConfigs>, k: OperatorConstants): Option<string>
  {
    match ActiveBackend(ResolveIngress(ingress))
    case None => None
    case Some(b) => Some(IngressClass(b, k))
  }

  /** The network keys the network defaults fill. */
  predicate NetworkDefaultKey(key: string)
  {
    key == "domainTemplate" || key == "autocreateClusterDomainClaims" || key == "defaultExternalScheme"
  }

  /** The entries the defaults before the ingress step write. */
  predicate DefaultsWrite(section: string, key: string, f: ClusterFacts)
  {
    (section == "deployment" && key == "queueSidecarImage") ||
    (section == "domain" && key == f.clusterDomain) ||
    (section == "network" && NetworkDefaultKey(key))
  }

  /** The entries reconciliation may write; every other entry is left as the user wrote it. */
  predicate Written(section: string, key: string, f: ClusterFacts, k: OperatorConstants)
  {
    DefaultsWrite(section, key, f) ||
    (section == "network" && key == "ingress.class") ||
    (section == k.observabilityConfigMap && (key == k.observabilityBackendKey || key == LoggingTemplateKey))
  }

  /** The network step fills the three network keys the user left unset. */
  lemma NetworkConfig(t: ServingSpec, k: OperatorConstants)
    ensures Get(WithNetworkDefaults(t, k).config, "network", "domainTemplate") ==
            Some(UserOr(t.config, "network", "domainTemplate", k.defaultDomainTemplate))
    ensures Get(WithNetworkDefaults(t, k).config, "network", "autocreateClusterDomainClaims") ==
            Some(UserOr(t.config, "network", "autocreateClusterDomainClaims", "true"))
    ensures Get(WithNetworkDefaults(t, k).config, "network", "defaultExternalScheme") ==
            Some(UserOr(t.config, "network", "defaultExternalScheme", "https"))
  {
  }

  /** The network step writes nothing but the three network keys. */
  lemma NetworkFrame(t: ServingSpec, k: OperatorConstants, section: string, key: string)
    requires !(section == "network" && NetworkDefaultKey(key))
    ensures Get(WithNetworkDefaults(t, k).config, section, key) == Get(t.config, section, key)
  {
  }

  /** The defaults before the ingress step: the queue-proxy image, the cluster domain and three network keys. */
  lemma DefaultedConfig(s: ServingSpec, f: ClusterFacts, k: OperatorConstants)
    ensures Get(DefaultedSpec(s, f, k).config, "deployment", "queueSidecarImage") == Some(Image(f.images, "queue-proxy"))
    ensures Get(DefaultedSpec(s, f, k).config, "domain", f.clusterDomain) == Some("")
    ensures Get(DefaultedSpec(s, f, k).config, "network", "domainTemplate") ==
            Some(UserOr(s.config, "network", "domainTemplate", k.defaultDomainTemplate))
    ensures Get(DefaultedSpec(s, f, k).config, "network", "autocreateClusterDomainClaims") ==
            Some(UserOr(s.config, "network", "autocreateClusterDomainClaims", "true"))
    ensures Get(DefaultedSpec(s, f, k).config, "network", "defaultExternalScheme") ==
            Some(UserOr(s.config, "network", "defaultExternalScheme", "https"))
  {
    var s3 := WithDomain(WithHighAvailability(WithImages(s, f.images)), f.clusterDomain);
    var s5 := WithCustomCerts(WithWebhookMemory(s3, k.webhookMemory));
    NetworkConfig(s5, k);
    NetworkFrame(s5, k, "deployment", "queueSidecarImage");
    NetworkFrame(s5, k, "domain", f.clusterDomain);
    assert s5.config == s3.config;
    assert forall key :: Get(s3.config, "network", key) == Get(s.config, "network", key);
  }

  /** The defaults before the ingress step write nothing else. */
  lemma DefaultedFrame(s: ServingSpec, f: ClusterFacts, k: OperatorConstants, section: string, key: string)
    requires !DefaultsWrite(section, key, f)
    ensures Get(DefaultedSpec(s, f, k).config, section, key) == Get(s.config, section, key)
  {
    var s3 := WithDomain(WithHighAvailability(WithImages(s, f.images)), f.clusterDomain);
    var s5 := WithCustomCerts(WithWebhookMemory(s3, k.webhookMemory));
    NetworkFrame(s5, k, section, key);
    assert s5.config == s3.config;
  }

  /** The ingress step sets the active backend's class and, for Istio, the disabled observability backend, unless set. */
  lemma IngressConfig(t: ServingSpec, k: OperatorConstants)
    requires DistinctSections(k)
    ensures Get(WithIngress(t, k).config, "network", "ingress.class") ==
            (if Get(t.config, "network", "ingress.class").Some? then Get(t.config, "network", "ingress.class")
             else BackendClass(t.ingress, k))
    ensures Get(WithIngress(t, k).config, k.observabilityConfigMap, k.observabilityBackendKey) ==
            (if Get(t.config, k.observabilityConfigMap, k.observabilityBackendKey).Some?
             then Get(t.config, k.observabilityConfigMap, k.observabilityBackendKey)
             else if ActiveBackend(ResolveIngress(t.ingress)) == Some(Istio) then Some(DisabledBackend)
             else None)
  {
  }

  /** The ingress step writes nothing but the ingress class and the observability backend. */
  lemma IngressFrame(t: ServingSpec, k: OperatorConstants, section: string, key: string)
    requires !(section == "network" && key == "ingress.class")
    requires !(section == k.observabilityConfigMap && key == k.observabilityBackendKey)
    ensures Get(WithIngress(t, k).config, section, key) == Get(t.config, section, key)
  {
  }

  /** The logging step sets the templated URL when a logging route exists, unless set. */
  lemma LoggingConfig(t: ServingSpec, loggingHost: Option<string>, k: OperatorConstants)
    ensures Get(WithLoggingTemplate(t, loggingHost, k).config, k.observabilityConfigMap, LoggingTemplateKey) ==
            (if Get(t.config, k.observabilityConfigMap, LoggingTemplateKey).Some?
             then Get(t.config, k.observabilityConfigMap, LoggingTemplateKey)
             else match loggingHost
                  case None => None
                  case Some(host) => Some(k.loggingUrlTemplate(host)))
  {
  }

  /** The logging step writes nothing but the logging URL template. */
  lemma LoggingFrame(t: ServingSpec, loggingHost: Option<string>, k: OperatorConstants, section: string, key: string)
    requires !(section == k.observabilityConfigMap && key == LoggingTemplateKey)
    ensures Get(WithLoggingTemplate(t, loggingHost, k).config, section, key) == Get(t.config, section, key)
  {
  }

  /** The monitoring step sets the disabled backend when the toggle is off and no backend is set. */
  lemma MonitoringConfig(t: ServingSpec, toggle: Option<bool>, k: OperatorConstants)
    ensures Get(WithMonitoring(t, toggle, k).config, k.observabilityConfigMap, k.observabilityBackendKey) ==
            (if Get(t.config, k.observabilityConfigMap, k.observabilityBackendKey).Some?
             then Get(t.config, k.observabilityConfigMap, k.observabilityBackendKey)
             else if toggle == Some(false) then Some(DisabledBackend)
             else None)
  {
  }

  /** The monitoring step writes nothing but the observability backend. */
  lemma MonitoringFrame(t: ServingSpec, toggle: Option<bool>, k: OperatorConstants, section: string, key: string)
    requires !(section == k.observabilityConfigMap && key == k.observabilityBackendKey)
    ensures Get(WithMonitoring(t, toggle, k).config, section, key) == Get(t.config, section, key)
  {
  }

  // ---------------------------------------------------------------------------
  // The resolved spec

  /** The spec each step of reconciliation sees, from the user's to the resolved one. */
  lemma Stages(s: ServingSpec, f: ClusterFacts, k: OperatorConstants)
    returns (d: ServingSpec, i: ServingSpec, p: ServingSpec)
    ensures d == DefaultedSpec(s, f, k) && i == WithIngress(d, k) && p == WithLoggingTemplate(i, f.loggingHost, k)
    ensures p == PreMonitoringSpec(s, f, k) && ResolvedSpec(s, f, k) == WithMonitoring(p, f.monitoringToggle, k)
  {
    d := DefaultedSpec(s, f, k);
    i := WithIngress(d, k);
    p := WithLoggingTemplate(i, f.loggingHost, k);
  }

  /** The observability-section entries the defaults never write. */
  lemma DefaultsSkipObservability(s: ServingSpec, f: ClusterFacts, k: OperatorConstants, key: string)
    requires DistinctSections(k)
    ensures Get(DefaultedSpec(s, f, k).config, k.observabilityConfigMap, key) == Get(s.config, k.observabilityConfigMap, key)
  {
    DefaultedFrame(s, f, k, k.observabilityConfigMap, key);
  }

  /** An entry written by the defaults keeps its value through the later steps. */
  lemma LaterStepsKeep(s: ServingSpec, f: ClusterFacts, k: OperatorConstants, section: string, key: string)
    requires DistinctSections(k)
    requires section == "deployment" || section == "domain" || (section == "network" && key != "ingress.class")
    ensures Get(ResolvedSpec(s, f, k).config, section, key) == Get(DefaultedSpec(s, f, k).config, section, key)
  {
    var d, i, p := Stages(s, f, k);
    IngressFrame(d, k, section, key);
    LoggingFrame(i, f.loggingHost, k, section, key);
    MonitoringFrame(p, f.monitoringToggle, k, section, key);
  }

  /** Two replicas unless the user asked for a nonzero number. */
  lemma ResolvedHighAvailability(s: ServingSpec, f: ClusterFacts, k: OperatorConstants)
    ensures ResolvedSpec(s, f, k).highAvailability ==
      (if s.highAvailability.None? || s.highAvailability.value.replicas == 0 then Some(HighAvailability(2))
       else s.highAvailability)
  {
  }

  /** The images of the environment over the user's overrides, the user's other overrides kept. */
  lemma ResolvedRegistry(s: ServingSpec, f: ClusterFacts, k: OperatorConstants)
    ensures var r := ResolvedSpec(s, f, k).registry;
      r.defaultImage == Image(f.images, "default") &&
      r.override.Keys == s.registry.override.Keys + f.images.Keys &&
      (forall name :: name in f.images ==> r.override[name] == f.images[name]) &&
      (forall name :: name in s.registry.override && name !in f.images ==> r.override[name] == s.registry.override[name])
  {
    var d, i, p := Stages(s, f, k);
    assert ResolvedSpec(s, f, k).registry == WithImages(s, f.images).registry;
  }

  /** The webhook's memory limit, every other override kept (MemoryLimitEnsured says how). */
  lemma ResolvedResources(s: ServingSpec, f: ClusterFacts, k: OperatorConstants)
    ensures ResolvedSpec(s, f, k).resources == EnsureContainerMemoryLimit(s.resources, "webhook", k.webhookMemory)
  {
  }

  /** The service-CA certificates unless the user named some. */
  lemma ResolvedCustomCerts(s: ServingSpec, f: ClusterFacts, k: OperatorConstants)
    ensures ResolvedSpec(s, f, k).controllerCustomCerts ==
            (if s.controllerCustomCerts == CustomCerts("", "") then CustomCerts("ConfigMap", "config-service-ca")
             else s.controllerCustomCerts)
  {
  }

  /** The self-healed ingress block. */
  lemma ResolvedIngress(s: ServingSpec, f: ClusterFacts, k: OperatorConstants)
    ensures ResolvedSpec(s, f, k).ingress == Some(ResolveIngress(s.ingress))
  {
  }

  /** The queue-proxy image, the cluster domain and the network defaults in the resolved configuration. */
  lemma ResolvedDefaultEntries(s: ServingSpec, f: ClusterFacts, k: OperatorConstants)
    requires DistinctSections(k)
    ensures var c := ResolvedSpec(s, f, k).config;
      Get(c, "deployment", "queueSidecarImage") == Some(Image(f.images, "queue-proxy")) &&
      Get(c, "domain", f.clusterDomain) == Some("") &&
      Get(c, "network", "domainTemplate") == Some(UserOr(s.config, "network", "domainTemplate", k.defaultDomainTemplate)) &&
      Get(c, "network", "autocreateClusterDomainClaims") ==
        Some(UserOr(s.config, "network", "autocreateClusterDomainClaims", "true")) &&
      Get(c, "network", "defaultExternalScheme") == Some(UserOr(s.config, "network", "defaultExternalScheme", "https"))
  {
    DefaultedConfig(s, f, k);
    LaterStepsKeep(s, f, k, "deployment", "queueSidecarImage");
    LaterStepsKeep(s, f, k, "domain", f.clusterDomain);
    LaterStepsKeep(s, f, k, "network", "domainTemplate");
    LaterStepsKeep(s, f, k, "network", "autocreateClusterDomainClaims");
    LaterStepsKeep(s, f, k, "network", "defaultExternalScheme");
  }

  /** The network ingress class: the user's, else the class of the one enabled backend, else unset. */
  lemma ResolvedIngressClass(s: ServingSpec, f: ClusterFacts, k: OperatorConstants)
    requires DistinctSections(k)
    ensures Get(ResolvedSpec(s, f, k).config, "network", "ingress.class") ==
            (if Get(s.config, "network", "ingress.class").Some? then Get(s.config, "network", "ingress.class")
             else BackendClass(s.ingress, k))
  {
    var d, i, p := Stages(s, f, k);
    DefaultedFrame(s, f, k, "network", "ingress.class");
    assert d.ingress == s.ingress;
    IngressConfig(d, k);
    LoggingFrame(i, f.loggingHost, k, "network", "ingress.class");
    MonitoringFrame(p, f.monitoringToggle, k, "network", "ingress.class");
  }

  /** The observability backend: the user's, else disabled when Istio is the ingress or the toggle is off, else unset. */
  lemma ResolvedObservabilityBackend(s: ServingSpec, f: ClusterFacts, k: OperatorConstants)
    requires DistinctSections(k)
    ensures var backend := Get(s.config, k.observabilityConfigMap, k.observabilityBackendKey);
      Get(ResolvedSpec(s, f, k).config, k.observabilityConfigMap, k.observabilityBackendKey) ==
        (if backend.Some? then backend
         else if ActiveBackend(ResolveIngress(s.ingress)) == Some(Istio) || f.monitoringToggle == Some(false)
         then Some(DisabledBackend)
         else None)
  {
    var d, i, p := Stages(s, f, k);
    DefaultsSkipObservability(s, f, k, k.observabilityBackendKey);
    assert d.ingress == s.ingress;
    IngressConfig(d, k);
    LoggingFrame(i, f.loggingHost, k, k.observabilityConfigMap, k.observabilityBackendKey);
    MonitoringConfig(p, f.monitoringToggle, k);
  }

  /** The logging URL template: the user's, else the logging route's, else unset. */
  lemma ResolvedLoggingTemplate(s: ServingSpec, f: ClusterFacts, k: OperatorConstants)
    requires DistinctSections(k)
    ensures var template := Get(s.config, k.observabilityConfigMap, LoggingTemplateKey);
      Get(ResolvedSpec(s, f, k).config, k.observabilityConfigMap, LoggingTemplateKey) ==
        (if template.Some? then template
         else match f.loggingHost
              case None => None
              case Some(host) => Some(k.loggingUrlTemplate(host)))
  {
    var d, i, p := Stages(s, f, k);
    DefaultsSkipObservability(s, f, k, LoggingTemplateKey);
    IngressFrame(d, k, k.observabilityConfigMap, LoggingTemplateKey);
    LoggingConfig(i, f.loggingHost, k);
    MonitoringFrame(p, f.monitoringToggle, k, k.observabilityConfigMap, LoggingTemplateKey);
  }

  /** Every configuration entry reconciliation does not write is left as the user wrote it. */
  lemma ResolvedConfigFrame(s: ServingSpec, f: ClusterFacts, k: OperatorConstants, section: string, key: string)
    requires !Written(section, key, f, k)
    ensures Get(ResolvedSpec(s, f, k).config, section, key) == Get(s.config, section, key)
  {
    var d, i, p := Stages(s, f, k);
    DefaultedFrame(s, f, k, section, key);
    IngressFrame(d, k, section, key);
    LoggingFrame(i, f.loggingHost, k, section, key);
    MonitoringFrame(p, f.monitoringToggle, k, section, key);
  }

  // ---------------------------------------------------------------------------
  // Monitoring

  /**
   * The namespace label Reconcile writes: an explicit observability backend
   * decides (off iff it is disabled); without one, monitoring is off when Istio
   * is the ingress or the toggle is off, and on otherwise. The resolved spec
   * says the same, so the label can be read back from it.
   */
  lemma MonitoringLabel(s: ServingSpec, f: ClusterFacts, k: OperatorConstants)
    requires DistinctSections(k)
    ensures MonitoringEnabled(PreMonitoringSpec(s, f, k).config, f.monitoringToggle, k) ==
      match Get(s.config, k.observabilityConfigMap, k.observabilityBackendKey)
      case Some(backend) => backend != DisabledBackend
      case None => ActiveBackend(ResolveIngress(s.ingress)) != Some(Istio) && f.monitoringToggle != Some(false)
    ensures MonitoringEnabled(ResolvedSpec(s, f, k).config, f.monitoringToggle, k) ==
            MonitoringEnabled(PreMonitoringSpec(s, f, k).config, f.monitoringToggle, k)
  {
    var d, i, p := Stages(s, f, k);
    DefaultsSkipObservability(s, f, k, k.observabilityBackendKey);
    assert d.ingress == s.ingress;
    IngressConfig(d, k);
    LoggingFrame(i, f.loggingHost, k, k.observabilityConfigMap, k.observabilityBackendKey);
    MonitoringConfig(p, f.monitoringToggle, k);
  }

  // ---------------------------------------------------------------------------
  // Status

  /**
   * The namespace guard's failure wins; otherwise a rejected version is
   * recorded; with an accepted version in the required namespace the status is
   * left alone. The dependencies condition is never touched.
   */
  lemma StatusOutcome(st: Status, namespace: string, f: ClusterFacts, k: OperatorConstants)
    ensures ResolvedStatus(st, namespace, f, k).dependenciesInstalled == st.dependenciesInstalled
    ensures namespace != f.requiredNamespace ==>
              ResolvedStatus(st, namespace, f, k).installFailed == Some(WrongNamespace(f.requiredNamespace))
    ensures namespace == f.requiredNamespace ==>
              match KubeVersion.CheckMinimumVersion(f.serverVersion, k.minimumVersion)
              case Some(e) => ResolvedStatus(st, namespace, f, k).installFailed == Some(VersionRejected(e))
              case None => ResolvedStatus(st, namespace, f, k) == st
  {
  }

  /** A server at or above the minimum version, in the required namespace, leaves the status as it was. */
  lemma AcceptedInstallUntouched(st: Status, namespace: string, f: ClusterFacts, k: OperatorConstants)
    requires namespace == f.requiredNamespace && f.serverVersion.Ok?
    requires KubeVersion.ParseVersion(f.serverVersion.value).Ok? && KubeVersion.ParseVersion(k.minimumVersion).Ok?
    requires KubeVersion.AtLeast(KubeVersion.ParseVersion(f.serverVersion.value).value,
                                 KubeVersion.ParseVersion(k.minimumVersion).value)
    ensures ResolvedStatus(st, namespace, f, k) == st
  {
  }

  /** Recording the gate failures twice records what recording them once does. */
  lemma StatusIdempotent(st: Status, namespace: string, f: ClusterFacts, k: OperatorConstants)
    ensures ResolvedStatus(ResolvedStatus(st, namespace, f, k), namespace, f, k) == ResolvedStatus(st, namespace, f, k)
  {
  }

  // ---------------------------------------------------------------------------
  // Idempotence

  /** The memory limit is where EnsureContainerMemoryLimit would put it. */
  predicate HasMemoryLimit(rs: seq<ResourceRequirementsOverride>, container: string, memory: Quantity)
  {
    FirstOverrideFor(rs, container) < |rs| &&
    "memory" in rs[FirstOverrideFor(rs, container)].limits &&
    rs[FirstOverrideFor(rs, container)].limits["memory"] == memory
  }

  /** A list that already holds the limit is left alone. */
  lemma MemoryLimitFixpoint(rs: seq<ResourceRequirementsOverride>, container: string, memory: Quantity)
    requires HasMemoryLimit(rs, container, memory)
    ensures EnsureContainerMemoryLimit(rs, container, memory) == rs
  {
    var i := FirstOverrideFor(rs, container);
    assert rs[i].limits["memory" := memory] == rs[i].limits;
    assert rs[i := rs[i].(limits := rs[i].limits["memory" := memory])] == rs;
  }

  /** What the defaults before the ingress step leave behind. */
  predicate DefaultsResolved(t: ServingSpec, f: ClusterFacts, k: OperatorConstants)
  {
    t.registry.defaultImage == Image(f.images, "default") &&
    (forall name :: name in f.images ==> name in t.registry.override && t.registry.override[name] == f.images[name]) &&
    Get(t.config, "deployment", "queueSidecarImage") == Some(Image(f.images, "queue-proxy")) &&
    t.highAvailability.Some? && t.highAvailability.value.replicas != 0 &&
    Get(t.config, "domain", f.clusterDomain) == Some("") &&
    HasMemoryLimit(t.resources, "webhook", k.webhookMemory) &&
    t.controllerCustomCerts != CustomCerts("", "") &&
    Get(t.config, "network", "domainTemplate").Some? &&
    Get(t.config, "network", "autocreateClusterDomainClaims").Some? &&
    Get(t.config, "network", "defaultExternalScheme").Some?
  }

  /** What the ingress, logging and monitoring steps leave behind. */
  predicate LaterStepsResolved(t: ServingSpec, f: ClusterFacts, k: OperatorConstants)
  {
    t.ingress.Some? && ResolveIngress(t.ingress) == t.ingress.value &&
    (BackendClass(t.ingress, k).Some? ==> Get(t.config, "network", "ingress.class").Some?) &&
    (ActiveBackend(t.ingress.value) == Some(Istio) ==> Get(t.config, k.observabilityConfigMap, k.observabilityBackendKey).Some?) &&
    (f.loggingHost.Some? ==> Get(t.config, k.observabilityConfigMap, LoggingTemplateKey).Some?) &&
    (f.monitoringToggle == Some(false) ==> Get(t.config, k.observabilityConfigMap, k.observabilityBackendKey).Some?)
  }

  /** What a resolved spec looks like, given the same cluster facts and constants. */
  predicate IsResolved(t: ServingSpec, f: ClusterFacts, k: OperatorConstants)
  {
    DefaultsResolved(t, f, k) && LaterStepsResolved(t, f, k)
  }

  /** Reconciliation leaves what the defaults leave. */
  lemma ResolvedSpecDefaultsResolved(s: ServingSpec, f: ClusterFacts, k: OperatorConstants)
    requires DistinctSections(k)
    ensures DefaultsResolved(ResolvedSpec(s, f, k), f, k)
  {
    ResolvedRegistry(s, f, k);
    ResolvedDefaultEntries(s, f, k);
    ResolvedHighAvailability(s, f, k);
    ResolvedResources(s, f, k);
    MemoryLimitEnsured(s.resources, "webhook", k.webhookMemory);
    ResolvedCustomCerts(s, f, k);
  }

  /** Reconciliation leaves what the later steps leave. */
  lemma ResolvedSpecLaterStepsResolved(s: ServingSpec, f: ClusterFacts, k: OperatorConstants)
    requires DistinctSections(k)
    ensures LaterStepsResolved(ResolvedSpec(s, f, k), f, k)
  {
    ResolvedIngress(s, f, k);
    ResolveIngressIdempotent(s.ingress);
    ResolvedIngressClass(s, f, k);
    ResolvedObservabilityBackend(s, f, k);
    ResolvedLoggingTemplate(s, f, k);
  }

  /** Reconciliation always produces a resolved spec. */
  lemma ResolvedSpecIsResolved(s: ServingSpec, f: ClusterFacts, k: OperatorConstants)
    requires DistinctSections(k)
    ensures IsResolved(ResolvedSpec(s, f, k), f, k)
  {
    ResolvedSpecDefaultsResolved(s, f, k);
    ResolvedSpecLaterStepsResolved(s, f, k);
  }

  /** Every default before the ingress step leaves a resolved spec alone. */
  lemma DefaultsFixpoint(t: ServingSpec, f: ClusterFacts, k: OperatorConstants)
    requires IsResolved(t, f, k)
    ensures DefaultedSpec(t, f, k) == t
  {
    assert t.registry.override + f.images == t.registry.override;
    ConfigureSame(t.config, "deployment", "queueSidecarImage", Image(f.images, "queue-proxy"));
    assert WithImages(t, f.images) == t;
    ConfigureSame(t.config, "domain", f.clusterDomain, "");
    assert WithDomain(t, f.clusterDomain) == t;
    MemoryLimitFixpoint(t.resources, "webhook", k.webhookMemory);
    assert WithWebhookMemory(t, k.webhookMemory) == t;
  }

  /** Ingress resolution, the logging template and the monitoring step leave a resolved spec alone. */
  lemma LaterStepsFixpoint(t: ServingSpec, f: ClusterFacts, k: OperatorConstants)
    requires IsResolved(t, f, k)
    ensures WithIngress(t, k) == t
    ensures WithLoggingTemplate(t, f.loggingHost, k) == t
    ensures WithMonitoring(t, f.monitoringToggle, k) == t
  {
  }

  /**
   * A spec is left alone by reconciliation exactly when it is resolved; so
   * reconciling twice with the same facts gives what reconciling once gives.
   */
  lemma ResolvedFixpoint(t: ServingSpec, f: ClusterFacts, k: OperatorConstants)
    requires DistinctSections(k)
    ensures ResolvedSpec(t, f, k) == t <==> IsResolved(t, f, k)
    ensures IsResolved(t, f, k) ==> PreMonitoringSpec(t, f, k) == t
  {
    ResolvedSpecIsResolved(t, f, k);
    if IsResolved(t, f, k) {
      DefaultsFixpoint(t, f, k);
      LaterStepsFixpoint(t, f, k);
    }
  }

  /** Reconciling a reconciled spec changes nothing. */
  lemma ResolvedSpecIdempotent(s: ServingSpec, f: ClusterFacts, k: OperatorConstants)
    requires DistinctSections(k)
    ensures ResolvedSpec(ResolvedSpec(s, f, k), f, k) == ResolvedSpec(s, f, k)
    ensures MonitoringEnabled(PreMonitoringSpec(ResolvedSpec(s, f, k), f, k).config, f.monitoringToggle, k) ==
            MonitoringEnabled(PreMonitoringSpec(s, f, k).config, f.monitoringToggle, k)
  {
    ResolvedSpecIsResolved(s, f, k);
    ResolvedFixpoint(ResolvedSpec(s, f, k), f, k);
    MonitoringLabel(s, f, k);
  }

  // ---------------------------------------------------------------------------
  // A user's entry wins

  /** The spec with one configuration entry set. */
  function SetEntry(t: ServingSpec, section: string, key: string, value: string): ServingSpec
  {
    t.(config := Configure(t.config, section, key, value))
  }

  /** Setting two different entries in either order gives the same configuration. */
  lemma ConfigureCommute(c: ConfigMapData, s1: string, k1: string, v1: string, s2: string, k2: string, v2: string)
    requires s1 != s2 || k1 != k2
    ensures Configure(Configure(c, s1, k1, v1), s2, k2, v2) == Configure(Configure(c, s2, k2, v2), s1, k1, v1)
  {
    if s1 == s2 {
      var e := if s1 in c then c[s1] else map[];
      assert e[k1 := v1][k2 := v2] == e[k2 := v2][k1 := v1];
    } else {
      var a := Configure(Configure(c, s1, k1, v1), s2, k2, v2);
      var b := Configure(Configure(c, s2, k2, v2), s1, k1, v1);
      assert a.Keys == b.Keys;
      assert forall x :: x in a ==> a[x] == b[x];
    }
  }

  /** Setting an entry twice keeps the second value. */
  lemma ConfigureOverwrite(c: ConfigMapData, section: string, key: string, v1: string, v2: string)
    ensures Configure(Configure(c, section, key, v1), section, key, v2) == Configure(c, section, key, v2)
  {
    var e := if section in c then c[section] else map[];
    assert e[key := v1][key := v2] == e[key := v2];
  }

  /** A default written only when unset yields to an entry the user set, whenever it was set. */
  lemma ConfigureIfUnsetYields(c: ConfigMapData, section: string, key: string, value: string,
                               s2: string, k2: string, fallback: string)
    ensures ConfigureIfUnset(Configure(c, section, key, value), s2, k2, fallback) ==
            Configure(ConfigureIfUnset(c, s2, k2, fallback), section, key, value)
  {
    if s2 == section && k2 == key {
      if Get(c, s2, k2).None? {
        ConfigureOverwrite(c, section, key, fallback, value);
      }
    } else if Get(c, s2, k2).None? {
      ConfigureCommute(c, section, key, value, s2, k2, fallback);
    }
  }

  lemma ImagesStepYields(t: ServingSpec, images: map<string, string>, section: string, key: string, value: string)
    requires !(section == "deployment" && key == "queueSidecarImage")
    ensures WithImages(SetEntry(t, section, key, value), images) == SetEntry(WithImages(t, images), section, key, value)
  {
    ConfigureCommute(t.config, section, key, value, "deployment", "queueSidecarImage", Image(images, "queue-proxy"));
  }

  lemma DomainStepYields(t: ServingSpec, domain: string, section: string, key: string, value: string)
    requires !(section == "domain" && key == domain)
    ensures WithDomain(SetEntry(t, section, key, value), domain) == SetEntry(WithDomain(t, domain), section, key, value)
  {
    ConfigureCommute(t.config, section, key, value, "domain", domain, "");
  }

  lemma NetworkStepYields(t: ServingSpec, k: OperatorConstants, section: string, key: string, value: string)
    ensures WithNetworkDefaults(SetEntry(t, section, key, value), k) == SetEntry(WithNetworkDefaults(t, k), section, key, value)
  {
    var c0 := t.config;
    var c1 := ConfigureIfUnset(c0, "network", "domainTemplate", k.defaultDomainTemplate);
    var c2 := ConfigureIfUnset(c1, "network", "autocreateClusterDomainClaims", "true");
    ConfigureIfUnsetYields(c0, section, key, value, "network", "domainTemplate", k.defaultDomainTemplate);
    ConfigureIfUnsetYields(c1, section, key, value, "network", "autocreateClusterDomainClaims", "true");
    ConfigureIfUnsetYields(c2, section, key, value, "network", "defaultExternalScheme", "https");
  }

  lemma IngressStepYields(t: ServingSpec, k: OperatorConstants, section: string, key: string, value: string)
    ensures WithIngress(SetEntry(t, section, key, value), k) == SetEntry(WithIngress(t, k), section, key, value)
  {
    var i := ResolveIngress(t.ingress);
    var c1 := match ActiveBackend(i)
      case None => t.config
      case Some(b) => ConfigureIfUnset(t.config, "network", "ingress.class", IngressClass(b, k));
    if ActiveBackend(i).Some? {
      ConfigureIfUnsetYields(t.config, section, key, value, "network", "ingress.class", IngressClass(ActiveBackend(i).value, k));
    }
    if ActiveBackend(i) == Some(Istio) {
      ConfigureIfUnsetYields(c1, section, key, value, k.observabilityConfigMap, k.observabilityBackendKey, DisabledBackend);
    }
  }

  lemma LoggingStepYields(t: ServingSpec, loggingHost: Option<string>, k: OperatorConstants,
                          section: string, key: string, value: string)
    ensures WithLoggingTemplate(SetEntry(t, section, key, value), loggingHost, k) ==
            SetEntry(WithLoggingTemplate(t, loggingHost, k), section, key, value)
  {
    if loggingHost.Some? {
      ConfigureIfUnsetYields(t.config, section, key, value,
                             k.observabilityConfigMap, LoggingTemplateKey, k.loggingUrlTemplate(loggingHost.value));
    }
  }

  lemma MonitoringStepYields(t: ServingSpec, toggle: Option<bool>, k: OperatorConstants,
                             section: string, key: string, value: string)
    ensures WithMonitoring(SetEntry(t, section, key, value), toggle, k) == SetEntry(WithMonitoring(t, toggle, k), section, key, value)
  {
    var backend := Get(t.config, k.observabilityConfigMap, k.observabilityBackendKey);
    if section == k.observabilityConfigMap && key == k.observabilityBackendKey {
      if backend.None? && toggle == Some(false) {
        ConfigureOverwrite(t.config, section, key, DisabledBackend, value);
      }
    } else if backend.None? && toggle == Some(false) {
      ConfigureCommute(t.config, section, key, value, k.observabilityConfigMap, k.observabilityBackendKey, DisabledBackend);
    }
  }

  /** The defaults before the ingress step yield to a user's entry the same way. */
  lemma DefaultsYield(s: ServingSpec, f: ClusterFacts, k: OperatorConstants, section: string, key: string, value: string)
    requires !(section == "deployment" && key == "queueSidecarImage") && !(section == "domain" && key == f.clusterDomain)
    ensures DefaultedSpec(SetEntry(s, section, key, value), f, k) == SetEntry(DefaultedSpec(s, f, k), section, key, value)
  {
    var s1 := WithImages(s, f.images);
    ImagesStepYields(s, f.images, section, key, value);
    var s2 := WithHighAvailability(s1);
    assert WithHighAvailability(SetEntry(s1, section, key, value)) == SetEntry(s2, section, key, value);
    var s3 := WithDomain(s2, f.clusterDomain);
    DomainStepYields(s2, f.clusterDomain, section, key, value);
    var s4 := WithWebhookMemory(s3, k.webhookMemory);
    assert WithWebhookMemory(SetEntry(s3, section, key, value), k.webhookMemory) == SetEntry(s4, section, key, value);
    var s5 := WithCustomCerts(s4);
    assert WithCustomCerts(SetEntry(s4, section, key, value)) == SetEntry(s5, section, key, value);
    NetworkStepYields(s5, k, section, key, value);
  }

  /**
   * A user's configuration entry always survives reconciliation, whatever the
   * defaults, the ingress backend, the logging route or the monitoring toggle
   * would have written there; only the queue-proxy image and the cluster
   * domain's entry are forced. Everything else comes out as without that entry.
   */
  lemma UserEntryWins(s: ServingSpec, f: ClusterFacts, k: OperatorConstants, section: string, key: string, value: string)
    requires !(section == "deployment" && key == "queueSidecarImage") && !(section == "domain" && key == f.clusterDomain)
    ensures ResolvedSpec(SetEntry(s, section, key, value), f, k) == SetEntry(ResolvedSpec(s, f, k), section, key, value)
  {
    var d, i, p := Stages(s, f, k);
    DefaultsYield(s, f, k, section, key, value);
    IngressStepYields(d, k, section, key, value);
    LoggingStepYields(i, f.loggingHost, k, section, key, value);
    MonitoringStepYields(p, f.monitoringToggle, k, section, key, value);
  }

  // ---------------------------------------------------------------------------
  // The other fields are resolved independently

  /** The steps after the ingress step never look at the replicas, the certificates or the ingress block. */
  lemma LaterStepsIgnoreFields(p: ServingSpec, f: ClusterFacts, k: OperatorConstants,
                               ha: Option<HighAvailability>, certs: CustomCerts, ingress: Option<IngressConfigs>)
    ensures var q := p.(highAvailability := ha, controllerCustomCerts := certs, ingress := ingress);
      WithMonitoring(WithLoggingTemplate(q, f.loggingHost, k), f.monitoringToggle, k) ==
      WithMonitoring(WithLoggingTemplate(p, f.loggingHost, k), f.monitoringToggle, k)
        .(highAvailability := ha, controllerCustomCerts := certs, ingress := ingress)
  {
  }

  /** A nonzero replica count the user asked for is kept, and changes nothing else. */
  lemma HighAvailabilityKept(s: ServingSpec, f: ClusterFacts, k: OperatorConstants, replicas: int)
    requires replicas != 0
    ensures ResolvedSpec(s.(highAvailability := Some(HighAvailability(replicas))), f, k) ==
            ResolvedSpec(s, f, k).(highAvailability := Some(HighAvailability(replicas)))
  {
    var h := Some(HighAvailability(replicas));
    var t := s.(highAvailability := h);
    var s2 := WithHighAvailability(WithImages(s, f.images));
    assert WithHighAvailability(WithImages(t, f.images)) == s2.(highAvailability := h);
    var s3 := WithDomain(s2, f.clusterDomain);
    assert WithDomain(s2.(highAvailability := h), f.clusterDomain) == s3.(highAvailability := h);
    var s5 := WithCustomCerts(WithWebhookMemory(s3, k.webhookMemory));
    assert WithCustomCerts(WithWebhookMemory(s3.(highAvailability := h), k.webhookMemory)) == s5.(highAvailability := h);
    var d := WithNetworkDefaults(s5, k);
    assert d == DefaultedSpec(s, f, k);
    assert DefaultedSpec(t, f, k) == d.(highAvailability := h);
    var i := WithIngress(d, k);
    assert WithIngress(d.(highAvailability := h), k) == i.(highAvailability := h);
    LaterStepsIgnoreFields(i, f, k, h, i.controllerCustomCerts, i.ingress);
  }

  /** Certificates the user named are kept, and change nothing else. */
  lemma CustomCertsKept(s: ServingSpec, f: ClusterFacts, k: OperatorConstants, certs: CustomCerts)
    requires certs != CustomCerts("", "")
    ensures ResolvedSpec(s.(controllerCustomCerts := certs), f, k) == ResolvedSpec(s, f, k).(controllerCustomCerts := certs)
  {
    var t := s.(controllerCustomCerts := certs);
    var s4 := WithWebhookMemory(WithDomain(WithHighAvailability(WithImages(s, f.images)), f.clusterDomain), k.webhookMemory);
    assert WithWebhookMemory(WithDomain(WithHighAvailability(WithImages(t, f.images)), f.clusterDomain), k.webhookMemory) ==
           s4.(controllerCustomCerts := certs);
    var s5 := WithCustomCerts(s4);
    assert WithCustomCerts(s4.(controllerCustomCerts := certs)) == s5.(controllerCustomCerts := certs);
    var d := WithNetworkDefaults(s5, k);
    assert d == DefaultedSpec(s, f, k);
    assert DefaultedSpec(t, f, k) == d.(controllerCustomCerts := certs);
    var i := WithIngress(d, k);
    assert WithIngress(d.(controllerCustomCerts := certs), k) == i.(controllerCustomCerts := certs);
    LaterStepsIgnoreFields(i, f, k, i.highAvailability, certs, i.ingress);
  }

  /** User overrides of images the environment also names make no difference. */
  lemma ShadowedOverridesIgnored(s: ServingSpec, f: ClusterFacts, k: OperatorConstants, registry: Registry)
    requires registry.override.Keys <= f.images.Keys && s.registry.override.Keys <= f.images.Keys
    ensures ResolvedSpec(s.(registry := registry), f, k) == ResolvedSpec(s, f, k)
  {
    var t := s.(registry := registry);
    assert registry.override + f.images == s.registry.override + f.images;
    assert WithImages(t, f.images) == WithImages(s, f.images);
  }

  /** The defaults before the ingress step never look at the ingress block. */
  lemma DefaultsIgnoreIngress(s: ServingSpec, f: ClusterFacts, k: OperatorConstants, ingress: Option<IngressConfigs>)
    ensures DefaultedSpec(s.(ingress := ingress), f, k) == DefaultedSpec(s, f, k).(ingress := ingress)
  {
    var t := s.(ingress := ingress);
    var s3 := WithDomain(WithHighAvailability(WithImages(s, f.images)), f.clusterDomain);
    assert WithDomain(WithHighAvailability(WithImages(t, f.images)), f.clusterDomain) == s3.(ingress := ingress);
    var s5 := WithCustomCerts(WithWebhookMemory(s3, k.webhookMemory));
    assert WithCustomCerts(WithWebhookMemory(s3.(ingress := ingress), k.webhookMemory)) == s5.(ingress := ingress);
  }

  /** An ingress block resolving to a block with the same active backend changes only the resolved block. */
  lemma IngressBlockKept(s: ServingSpec, f: ClusterFacts, k: OperatorConstants, ingress: Option<IngressConfigs>)
    requires ActiveBackend(ResolveIngress(ingress)) == ActiveBackend(ResolveIngress(s.ingress))
    ensures ResolvedSpec(s.(ingress := ingress), f, k) == ResolvedSpec(s, f, k).(ingress := Some(ResolveIngress(ingress)))
  {
    var d, i, p := Stages(s, f, k);
    DefaultsIgnoreIngress(s, f, k, ingress);
    assert WithIngress(d.(ingress := ingress), k) == i.(ingress := Some(ResolveIngress(ingress)));
    LaterStepsIgnoreFields(i, f, k, i.highAvailability, i.controllerCustomCerts, Some(ResolveIngress(ingress)));
  }
}

