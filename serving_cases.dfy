/**
 * The reconciliation cases the serving extension's tests pin down, stated for
 * every choice of the operator's constants that keeps the observability
 * section apart and accepts a v1.20.0 server: the environment sets
 * `IMAGE_foo=bar`, `IMAGE_default=bar2` and `IMAGE_queue-proxy=baz`, the
 * cluster domain is routing.example.com and KnativeServing must live in
 * knative-serving.
 */
module ServingCases {
  import opened Wrappers
  import KubeVersion
  import opened ServingExtension
  import opened ServingProperties

  const TestImages: map<string, string> := map["foo" := "bar", "default" := "bar2", "queue-proxy" := "baz"]
  const TestDomain := "routing.example.com"
  const TestNamespace := "knative-serving"

  /** The facts the fake cluster reports, with the logging route's host and the monitoring toggle of a case. */
  function TestFacts(loggingHost: Option<string>, toggle: Option<bool>): ClusterFacts
  {
    ClusterFacts(Ok("v1.20.0"), TestDomain, loggingHost, TestNamespace, TestImages, toggle)
  }

  /** What every case assumes of the constants. */
  predicate TestConstants(k: OperatorConstants)
  {
    DistinctSections(k) && KubeVersion.CheckMinimumVersion(Ok("v1.20.0"), k.minimumVersion).None?
  }

  /** An empty KnativeServing spec. */
  const EmptySpec := ServingSpec(None, map[], Registry("", map[]), [], CustomCerts("", ""), None)

  const KourierClusterIP := IngressConfigs(IstioConfig(false), KourierConfig(true, ClusterIP), ContourConfig(false))

  function BaselineNetwork(k: OperatorConstants): map<string, string>
  {
    map["domainTemplate" := k.defaultDomainTemplate, "ingress.class" := k.kourierIngressClass,
        "autocreateClusterDomainClaims" := "true", "defaultExternalScheme" := "https"]
  }

  function BaselineConfig(k: OperatorConstants): ConfigMapData
  {
    map["deployment" := map["queueSidecarImage" := "baz"],
        "domain" := map[TestDomain := ""],
        "network" := BaselineNetwork(k)]
  }

  /** The expected resource of the tests (`ks()`). */
  function Baseline(k: OperatorConstants): ServingSpec
  {
    ServingSpec(
      Some(HighAvailability(2)),
      BaselineConfig(k),
      Registry("bar2", TestImages),
      [ResourceRequirementsOverride("webhook", map["memory" := k.webhookMemory], map[])],
      CustomCerts("ConfigMap", "config-service-ca"),
      Some(KourierClusterIP))
  }

  lemma TestImageLookups()
    ensures Image(TestImages, "default") == "bar2" && Image(TestImages, "queue-proxy") == "baz"
  {
  }

  const DeploymentSection: map<string, string> := map["queueSidecarImage" := "baz"]
  const DomainSection: map<string, string> := map[TestDomain := ""]

  function NetworkDefaults(k: OperatorConstants): map<string, string>
  {
    map["domainTemplate" := k.defaultDomainTemplate, "autocreateClusterDomainClaims" := "true", "defaultExternalScheme" := "https"]
  }

  lemma AllNilImages()
    ensures WithImages(EmptySpec, TestImages) ==
            EmptySpec.(registry := Registry("bar2", TestImages), config := map["deployment" := DeploymentSection])
  {
    TestImageLookups();
    assert map[] + TestImages == TestImages;
  }

  lemma AllNilDomain(t: ServingSpec)
    requires t.config == map["deployment" := DeploymentSection]
    ensures WithDomain(t, TestDomain).config == map["deployment" := DeploymentSection, "domain" := DomainSection]
  {
  }

  lemma AllNilNetwork(t: ServingSpec, k: OperatorConstants)
    requires t.config == map["deployment" := DeploymentSection, "domain" := DomainSection]
    ensures WithNetworkDefaults(t, k).config ==
            map["deployment" := DeploymentSection, "domain" := DomainSection, "network" := NetworkDefaults(k)]
  {
  }

  lemma AllNilIngress(t: ServingSpec, k: OperatorConstants)
    requires DistinctSections(k)
    requires t.config == map["deployment" := DeploymentSection, "domain" := DomainSection, "network" := NetworkDefaults(k)]
    requires t.ingress.None?
    ensures WithIngress(t, k) == t.(ingress := Some(KourierClusterIP), config := BaselineConfig(k))
  {
    assert ResolveIngress(None) == KourierClusterIP;
    assert NetworkDefaults(k)["ingress.class" := k.kourierIngressClass] == BaselineNetwork(k);
  }

  /** Reconciling an empty spec, up to the monitoring step, gives the baseline. */
  lemma EmptyResolvesToBaseline(k: OperatorConstants, toggle: Option<bool>)
    requires TestConstants(k)
    ensures DefaultedSpec(EmptySpec, TestFacts(None, toggle), k).config ==
            map["deployment" := DeploymentSection, "domain" := DomainSection, "network" := NetworkDefaults(k)]
    ensures PreMonitoringSpec(EmptySpec, TestFacts(None, toggle), k) == Baseline(k)
  {
    var f := TestFacts(None, toggle);
    var s1 := WithImages(EmptySpec, TestImages);
    AllNilImages();
    var s3 := WithDomain(WithHighAvailability(s1), TestDomain);
    AllNilDomain(WithHighAvailability(s1));
    var s5 := WithCustomCerts(WithWebhookMemory(s3, k.webhookMemory));
    var d := WithNetworkDefaults(s5, k);
    AllNilNetwork(s5, k);
    assert d == DefaultedSpec(EmptySpec, f, k);
    AllNilIngress(d, k);
  }

  /** The baseline has no observability section. */
  lemma BaselineWithoutObservability(k: OperatorConstants, key: string)
    requires DistinctSections(k)
    ensures Get(BaselineConfig(k), k.observabilityConfigMap, key) == None
  {
  }

  /** "all nil": an empty spec resolves to the baseline. */
  lemma AllNil(k: OperatorConstants)
    requires TestConstants(k)
    ensures ResolvedSpec(EmptySpec, TestFacts(None, None), k) == Baseline(k)
  {
    EmptyResolvesToBaseline(k, None);
  }

  /** "different HA settings": three replicas are kept. */
  lemma DifferentHighAvailability(k: OperatorConstants)
    requires TestConstants(k)
    ensures ResolvedSpec(EmptySpec.(highAvailability := Some(HighAvailability(3))), TestFacts(None, None), k) ==
            Baseline(k).(highAvailability := Some(HighAvailability(3)))
  {
    AllNil(k);
    HighAvailabilityKept(EmptySpec, TestFacts(None, None), k, 3);
  }

  /** "different certificate settings": a named secret is kept. */
  lemma DifferentCertificates(k: OperatorConstants)
    requires TestConstants(k)
    ensures ResolvedSpec(EmptySpec.(controllerCustomCerts := CustomCerts("Secret", "foo")), TestFacts(None, None), k) ==
            Baseline(k).(controllerCustomCerts := CustomCerts("Secret", "foo"))
  {
    AllNil(k);
    CustomCertsKept(EmptySpec, TestFacts(None, None), k, CustomCerts("Secret", "foo"));
  }

  const LoggingHost := "logging.example.com"

  /** "existing logging route": the kibana route's host is templated into the revision URL template. */
  lemma ExistingLoggingRoute(k: OperatorConstants)
    requires TestConstants(k)
    ensures ResolvedSpec(EmptySpec, TestFacts(Some(LoggingHost), None), k) ==
            SetEntry(Baseline(k), k.observabilityConfigMap, LoggingTemplateKey, k.loggingUrlTemplate(LoggingHost))
  {
    var f := TestFacts(Some(LoggingHost), None);
    var d, i, p := Stages(EmptySpec, f, k);
    EmptyResolvesToBaseline(k, None);
    assert DefaultedSpec(EmptySpec, f, k) == DefaultedSpec(EmptySpec, TestFacts(None, None), k);
    BaselineWithoutObservability(k, LoggingTemplateKey);
    BaselineWithoutObservability(k, k.observabilityBackendKey);
  }

  /** "override image settings": user overrides of images the environment names are replaced. */
  lemma OverrideImageSettings(k: OperatorConstants)
    requires TestConstants(k)
    ensures ResolvedSpec(EmptySpec.(registry := Registry("", map["foo" := "not", "queue-proxy" := "correct"])),
                         TestFacts(None, None), k) == Baseline(k)
  {
    AllNil(k);
    ShadowedOverridesIgnored(EmptySpec, TestFacts(None, None), k, Registry("", map["foo" := "not", "queue-proxy" := "correct"]));
  }

  /** A spec whose only configuration is one entry. */
  lemma OneEntry(section: string, key: string, value: string)
    ensures EmptySpec.(config := map[section := map[key := value]]) == SetEntry(EmptySpec, section, key, value)
  {
  }

  /** A user's entry in an empty spec comes out over the baseline. */
  lemma EntryOverBaseline(k: OperatorConstants, section: string, key: string, value: string)
    requires TestConstants(k)
    requires section != "deployment" && section != "domain"
    ensures ResolvedSpec(EmptySpec.(config := map[section := map[key := value]]), TestFacts(None, None), k) ==
            SetEntry(Baseline(k), section, key, value)
  {
    OneEntry(section, key, value);
    AllNil(k);
    UserEntryWins(EmptySpec, TestFacts(None, None), k, section, key, value);
  }

  /** "override ingress class": the user's ingress class is kept. */
  lemma OverrideIngressClass(k: OperatorConstants)
    requires TestConstants(k)
    ensures ResolvedSpec(EmptySpec.(config := map["network" := map["ingress.class" := "foo"]]), TestFacts(None, None), k) ==
            SetEntry(Baseline(k), "network", "ingress.class", "foo")
  {
    EntryOverBaseline(k, "network", "ingress.class", "foo");
  }

  /** "override default url scheme": the user's scheme is kept. */
  lemma OverrideUrlScheme(k: OperatorConstants)
    requires TestConstants(k)
    ensures ResolvedSpec(EmptySpec.(config := map["network" := map["defaultExternalScheme" := "http"]]), TestFacts(None, None), k) ==
            SetEntry(Baseline(k), "network", "defaultExternalScheme", "http")
  {
    EntryOverBaseline(k, "network", "defaultExternalScheme", "http");
  }

  /** "override autocreateClusterDomainClaims config": the user's choice is kept. */
  lemma OverrideAutocreateClaims(k: OperatorConstants)
    requires TestConstants(k)
    ensures ResolvedSpec(EmptySpec.(config := map["network" := map["autocreateClusterDomainClaims" := "false"]]),
                         TestFacts(None, None), k) ==
            SetEntry(Baseline(k), "network", "autocreateClusterDomainClaims", "false")
  {
    EntryOverBaseline(k, "network", "autocreateClusterDomainClaims", "false");
  }

  /** An ingress block whose resolution keeps Kourier as the one backend comes out resolved over the baseline. */
  lemma KourierBlock(k: OperatorConstants, ingress: IngressConfigs)
    requires TestConstants(k)
    requires ActiveBackend(ResolveIngress(Some(ingress))) == Some(Kourier)
    ensures ResolvedSpec(EmptySpec.(ingress := Some(ingress)), TestFacts(None, None), k) ==
            Baseline(k).(ingress := Some(ResolveIngress(Some(ingress))))
  {
    AllNil(k);
    NilIngressHeals();
    IngressBlockKept(EmptySpec, TestFacts(None, None), k, Some(ingress));
  }

  /** "default kourier service type": an enabled Kourier without a service type gets ClusterIP. */
  lemma DefaultKourierServiceType(k: OperatorConstants)
    requires TestConstants(k)
    ensures ResolvedSpec(EmptySpec.(ingress := Some(IngressConfigs(IstioConfig(false), KourierConfig(true, ""), ContourConfig(false)))),
                         TestFacts(None, None), k) == Baseline(k)
  {
    KourierBlock(k, IngressConfigs(IstioConfig(false), KourierConfig(true, ""), ContourConfig(false)));
  }

  /** "override kourier service type": a LoadBalancer service type is kept. */
  lemma OverrideKourierServiceType(k: OperatorConstants)
    requires TestConstants(k)
    ensures var lb := IngressConfigs(IstioConfig(false), KourierConfig(true, "LoadBalancer"), ContourConfig(false));
      ResolvedSpec(EmptySpec.(ingress := Some(lb)), TestFacts(None, None), k) == Baseline(k).(ingress := Some(lb))
  {
    KourierBlock(k, IngressConfigs(IstioConfig(false), KourierConfig(true, "LoadBalancer"), ContourConfig(false)));
  }

  /** "fix 'wrong' ingress config": all three backends disabled self-heal to Kourier with ClusterIP. */
  lemma FixWrongIngressConfig(k: OperatorConstants)
    requires TestConstants(k)
    ensures ResolvedSpec(EmptySpec.(ingress := Some(IngressConfigs(IstioConfig(false), KourierConfig(false, ""), ContourConfig(false)))),
                         TestFacts(None, None), k) == Baseline(k)
  {
    KourierBlock(k, IngressConfigs(IstioConfig(false), KourierConfig(false, ""), ContourConfig(false)));
  }

  /** "respect kourier settings": a disabled Kourier with ClusterIP is enabled, its service type kept. */
  lemma RespectKourierSettings(k: OperatorConstants)
    requires TestConstants(k)
    ensures ResolvedSpec(EmptySpec.(ingress := Some(IngressConfigs(IstioConfig(false), KourierConfig(false, ClusterIP), ContourConfig(false)))),
                         TestFacts(None, None), k) == Baseline(k)
  {
    KourierBlock(k, IngressConfigs(IstioConfig(false), KourierConfig(false, ClusterIP), ContourConfig(false)));
  }

  const IstioOnly := IngressConfigs(IstioConfig(true), KourierConfig(false, ""), ContourConfig(false))

  /** With Istio the only backend and neither entry set, the ingress step writes Istio's class and the disabled backend. */
  lemma IstioIngressStep(d: ServingSpec, k: OperatorConstants)
    requires d.ingress == Some(IstioOnly)
    requires Get(d.config, "network", "ingress.class").None?
    requires Get(d.config, k.observabilityConfigMap, k.observabilityBackendKey).None?
    requires DistinctSections(k)
    ensures WithIngress(d, k) ==
            SetEntry(SetEntry(d, "network", "ingress.class", k.istioIngressClass),
                     k.observabilityConfigMap, k.observabilityBackendKey, DisabledBackend)
  {
    assert ResolveIngress(Some(IstioOnly)) == IstioOnly;
    assert ActiveBackend(IstioOnly) == Some(Istio);
  }

  /** The defaults of an empty spec set neither the ingress class nor the observability backend. */
  lemma DefaultsLeaveIngressEntries(k: OperatorConstants)
    requires DistinctSections(k)
    ensures var c := map["deployment" := DeploymentSection, "domain" := DomainSection, "network" := NetworkDefaults(k)];
      Get(c, "network", "ingress.class").None? && Get(c, k.observabilityConfigMap, k.observabilityBackendKey).None?
  {
    assert "ingress.class" !in NetworkDefaults(k);
  }

  /** "override ingress config": Istio gets its ingress class and disables the observability backend. */
  lemma OverrideIngressConfig(k: OperatorConstants)
    requires TestConstants(k)
    ensures ResolvedSpec(EmptySpec.(ingress := Some(IstioOnly)), TestFacts(None, None), k) ==
            SetEntry(SetEntry(Baseline(k).(ingress := Some(IstioOnly)), "network", "ingress.class", k.istioIngressClass),
                     k.observabilityConfigMap, k.observabilityBackendKey, DisabledBackend)
  {
    var f := TestFacts(None, None);
    var t := EmptySpec.(ingress := Some(IstioOnly));
    var d, i, p := Stages(t, f, k);
    var d0 := DefaultedSpec(EmptySpec, f, k);
    EmptyResolvesToBaseline(k, None);
    DefaultsIgnoreIngress(EmptySpec, f, k, Some(IstioOnly));
    assert d == d0.(ingress := Some(IstioOnly));
    DefaultsLeaveIngressEntries(k);
    IstioIngressStep(d, k);
    AllNilIngress(d0, k);
    assert Baseline(k).(ingress := Some(IstioOnly)) == SetEntry(d, "network", "ingress.class", k.kourierIngressClass);
    ConfigureOverwrite(d.config, "network", "ingress.class", k.kourierIngressClass, k.istioIngressClass);
    BaselineWithoutObservability(k, k.observabilityBackendKey);
  }

  /** "respects different status": a resolved resource stays as it is, its dependencies condition included. */
  lemma RespectsDifferentStatus(k: OperatorConstants)
    requires TestConstants(k)
    ensures ResolvedSpec(Baseline(k), TestFacts(None, None), k) == Baseline(k)
    ensures ResolvedStatus(Status(true, None), TestNamespace, TestFacts(None, None), k) == Status(true, None)
  {
    AllNil(k);
    ResolvedSpecIdempotent(EmptySpec, TestFacts(None, None), k);
  }

  /** The condition message of the namespace guard for the test's required namespace. */
  lemma WrongNamespaceMessage(k: OperatorConstants)
    ensures Message(WrongNamespace(TestNamespace), k) == "Knative Serving must be installed into the namespace \"knative-serving\""
  {
  }

  /** "wrong namespace": the resource is marked failed and otherwise left resolved. */
  lemma WrongNamespaceCase(k: OperatorConstants)
    requires TestConstants(k)
    ensures ResolvedSpec(Baseline(k), TestFacts(None, None), k) == Baseline(k)
    ensures ResolvedStatus(Status(false, None), "foo", TestFacts(None, None), k) == Status(false, Some(WrongNamespace(TestNamespace)))
  {
    RespectsDifferentStatus(k);
  }

  // ---------------------------------------------------------------------------
  // The monitoring table

  /** The KnativeServing of a monitoring case: empty, or with only an explicit observability backend. */
  function MonitoringInput(k: OperatorConstants, backend: Option<string>): ServingSpec
  {
    match backend
    case None => EmptySpec
    case Some(b) => EmptySpec.(config := map[k.observabilityConfigMap := map[k.observabilityBackendKey := b]])
  }

  /** The expected resource of a monitoring case. */
  function MonitoringExpected(k: OperatorConstants, toggle: Option<bool>, backend: Option<string>): ServingSpec
  {
    match backend
    case Some(b) => SetEntry(Baseline(k), k.observabilityConfigMap, k.observabilityBackendKey, b)
    case None =>
      if toggle == Some(false) then SetEntry(Baseline(k), k.observabilityConfigMap, k.observabilityBackendKey, DisabledBackend)
      else Baseline(k)
  }

  /** The label a monitoring case expects on the namespace. */
  function ShouldEnableMonitoring(toggle: Option<bool>, backend: Option<string>): bool
  {
    match backend
    case Some(b) => b != DisabledBackend
    case None => toggle != Some(false)
  }

  /**
   * The nine monitoring cases, for every toggle (unset, on, off) and every
   * backend (absent, or any explicit value such as "prometheus" or "none"):
   * an explicit backend is kept and decides the label; without one the label
   * follows the toggle, and an off toggle writes the disabled backend.
   */
  lemma MonitoringTable(k: OperatorConstants, toggle: Option<bool>, backend: Option<string>)
    requires TestConstants(k)
    ensures ResolvedSpec(MonitoringInput(k, backend), TestFacts(None, toggle), k) == MonitoringExpected(k, toggle, backend)
    ensures MonitoringEnabled(PreMonitoringSpec(MonitoringInput(k, backend), TestFacts(None, toggle), k).config, toggle, k) ==
            ShouldEnableMonitoring(toggle, backend)
  {
    var f := TestFacts(None, toggle);
    EmptyResolvesToBaseline(k, toggle);
    BaselineWithoutObservability(k, k.observabilityBackendKey);
    NilIngressHeals();
    MonitoringLabel(MonitoringInput(k, backend), f, k);
    if backend.Some? {
      OneEntry(k.observabilityConfigMap, k.observabilityBackendKey, backend.value);
      UserEntryWins(EmptySpec, f, k, k.observabilityConfigMap, k.observabilityBackendKey, backend.value);
      if toggle == Some(false) {
        ConfigureOverwrite(BaselineConfig(k), k.observabilityConfigMap, k.observabilityBackendKey, DisabledBackend, backend.value);
      }
    }
  }

  /**
   * One run of the monitoring test: a fresh resource in the required namespace
   * and the namespace object, reconciled; the resource comes out as expected
   * and the namespace carries the expected monitoring label.
   */
  method RunMonitoringCase(k: OperatorConstants, toggle: Option<bool>, backend: Option<string>)
    returns (ks: KnativeServing, ns: Namespace)
    requires TestConstants(k)
    ensures ks.namespace == TestNamespace && ks.spec == MonitoringExpected(k, toggle, backend)
    ensures k.enableMonitoringLabel in ns.labels
    ensures ns.labels[k.enableMonitoringLabel] == FormatBool(ShouldEnableMonitoring(toggle, backend))
  {
    ks := new KnativeServing(TestNamespace, MonitoringInput(k, backend), Status(false, None));
    ns := new Namespace(TestNamespace, map[]);
    MonitoringTable(k, toggle, backend);
    Reconcile(ks, ns, TestFacts(None, toggle), k);
  }
}
