# OpenShift Knative operator: routes, serving reconciliation, Kafka channel defaults

This project is a verified Dafny model of three parts of the OpenShift Knative
operator and serverless ingress:

- **Route translation** (`Resources`, `RouteProperties`). This is the translation of a
  Knative `Ingress` into OpenShift `Route`s.
  - `MakeRoutes` skips cluster-local rules and filters hosts by their dot-labels.
    It calls `makeRoute` for each remaining host and stops at the first error.
  - `makeRoute` does the following:
    - It skips disabled ingresses.
    - It writes the HAProxy timeout annotation.
    - It finds the target service from the last load-balancer entry whose internal
      domain reads `service.namespace.svc…`.
    - It derives the insecure-edge policy from the HTTP option and the legacy
      annotation.
    - It switches to passthrough TLS for the passthrough annotation or TLS entries.
  - Route names are `route-<uid>-<hex of hashHost>`.
  - The pure definitions (`RouteFor`, `Routes`) say what is computed.
  - The methods `MakeRoute`, `MakeRuleRoutes` and `MakeRoutes` follow the Go loops
    over a mutable `Ingress` object and are proved to compute exactly that.
- **Serving extension reconciliation** (`KubeVersion`, `ServingExtension`,
  `ServingProperties`, `ServingCases`). The extension's `Reconcile` resolves a
  `KnativeServing` resource in place and labels its namespace for monitoring. It
  consists of:
  - the minimum-Kubernetes-version gate (`checkMinimumVersion`) and the
    required-namespace guard;
  - image overrides from `IMAGE_*` variables;
  - high-availability, domain, webhook-memory, certificate and network defaults;
  - ingress-backend self-healing;
  - the logging URL template;
  - the monitoring precedence (an explicit observability backend, then the
    toggle).

  The extension's implementation file is not part of this model. Its behaviour is
  modelled from the table tests of `extension_test.go` and the `ks()` baseline
  they compare against. `ServingCases` proves every `TestReconcile` and `TestMonitoring`
  row against the model; the `TestVersionCheck` rows are proved by
  `KubeVersion.VersionTablePasses` and `KubeVersion.VersionTableFails`.
- **KafkaChannel defaulting** (`KafkaChannelDefaults`). `KafkaChannel.SetDefaults`
  adds the subscribable duck-version annotation when it is absent and then
  defaults the spec. `KafkaChannelSpec.SetDefaults` replaces a zero partition
  count or replication factor by the configured default. Both are methods on
  classes that update the receiver in place.

`Text` models the Go library functions the core uses: `strings.Split`,
`strings.ToLower`, decimal `%v`, `%x` and `[]byte` of an ASCII string. `Wrappers`
holds `Option` and `Result`.

## Model

| member | source | states |
|---|---|---|
| Text.Split | serving/ingress/pkg/reconciler/ingress/resources/route.go:50-51 | at least one part, and no part contains the separator (JoinSplit makes it the inverse of Join) |
| Text.JoinSplit | serving/ingress/pkg/reconciler/ingress/resources/route.go:101 | joining the parts of a split with the separator gives back the original string |
| Text.SplitJoin | serving/ingress/pkg/reconciler/ingress/resources/route.go:101-105 | splitting a join of separator-free parts gives back exactly those parts |
| Text.SplitWithoutSeparator | serving/ingress/pkg/reconciler/ingress/resources/route.go:50 | a string without the separator splits into itself alone |
| Text.ToLower | serving/ingress/pkg/reconciler/ingress/resources/route.go:124 | same length, each character lowered on its own: an ASCII capital becomes its lower-case letter and any changed character is ASCII |
| Text.Decimal | serving/ingress/pkg/reconciler/ingress/resources/route.go:33 | a non-empty string of digits, of two or more digits from 10 on |
| Text.DecimalRoundTrip | serving/ingress/pkg/reconciler/ingress/resources/route.go:33 | parsing the decimal text of n gives n back |
| Text.HexEncode | serving/ingress/pkg/reconciler/ingress/resources/route.go:176 | twice as long as the bytes, and lower-case hex digits only |
| Text.HexRoundTrip | serving/ingress/pkg/reconciler/ingress/resources/route.go:172 | decoding the hex text of bytes gives the bytes back |
| Text.HexEncodeInjective | serving/ingress/pkg/reconciler/ingress/resources/route.go:172 | different byte strings never have the same hex text |
| Text.AsciiBytes | serving/ingress/pkg/reconciler/ingress/resources/route.go:172 | `[]byte(s)` of an ASCII string: one byte per character, with the character's code |
| Resources.HashHost | serving/ingress/pkg/reconciler/ingress/resources/route.go:175-177 | six ASCII hex-digit characters |
| Resources.RouteForIgnoresStamp | serving/ingress/pkg/reconciler/ingress/resources/route.go:69-85 | the timeout that makeRoute writes into the ingress's own annotation map changes no later makeRoute result |
| Resources.RoutesErrAfter | serving/ingress/pkg/reconciler/ingress/resources/route.go:52-55 | an error met within the first rules is the error of the whole MakeRoutes |
| Resources.CollectAppend | serving/ingress/pkg/reconciler/ingress/resources/route.go:43-61 | translating two candidate lists is translating the first, then the second, with the first error winning |
| Resources.CollectIgnoresStamp | serving/ingress/pkg/reconciler/ingress/resources/route.go:85 | the timeout written by an earlier host changes the result for no later host |
| Resources.MakeRoute | serving/ingress/pkg/reconciler/ingress/resources/route.go:67-169 | returns exactly RouteFor of the ingress's state; sets the ingress's own annotation map to the stamped one when it was non-nil and the rule was not skipped; changes nothing else |
| Resources.MakeRuleRoutes | serving/ingress/pkg/reconciler/ingress/resources/route.go:48-61 | the routes of one rule's hosts, exactly the translation of that rule's candidates; the ingress changes only in its annotations |
| Resources.MakeHostRoute | serving/ingress/pkg/reconciler/ingress/resources/route.go:48-60 | one pass of the host loop: a host that is not external is passed over, otherwise makeRoute runs on an ingress whose map may already carry the timeout; the result is the translation of the candidates up to and including this host, and the map is stamped once a candidate has been reached, unless routes are disabled |
| Resources.MakeRoutes | serving/ingress/pkg/reconciler/ingress/resources/route.go:40-65 | returns exactly Routes of the ingress (no routes on error); the ingress changes only in its annotations, which are stamped when a route was attempted |
| RouteProperties.CollectErrIffSomeErr | serving/ingress/pkg/reconciler/ingress/resources/route.go:52-55 | the translation fails exactly when makeRoute fails for some candidate |
| RouteProperties.CollectFirstErr | serving/ingress/pkg/reconciler/ingress/resources/route.go:52-55 | the error returned is that of the first failing candidate |
| RouteProperties.CollectOnePerCandidate | serving/ingress/pkg/reconciler/ingress/resources/route.go:56-59 | when no candidate is skipped, one route per candidate, in candidate order |
| RouteProperties.CollectNone | serving/ingress/pkg/reconciler/ingress/resources/route.go:56-58 | when every candidate is skipped, the empty list and no error |
| RouteProperties.HostCandidatesOrigins | serving/ingress/pkg/reconciler/ingress/resources/route.go:48-51 | the candidates of a host list are exactly its external hosts, in order |
| RouteProperties.CandidateOrigins | serving/ingress/pkg/reconciler/ingress/resources/route.go:43-51 | makeRoute is called for exactly the external hosts of the rules that are not cluster-local |
| RouteProperties.RoutesFailFast | serving/ingress/pkg/reconciler/ingress/resources/route.go:52-55 | MakeRoutes fails exactly when some candidate fails, with the first such error and no routes |
| RouteProperties.RoutesDisabled | serving/ingress/pkg/reconciler/ingress/resources/route.go:79-82 | the disable-route annotation gives no routes and no error, whatever the load balancer says |
| RouteProperties.RoutesInOrder | serving/ingress/pkg/reconciler/ingress/resources/route.go:43-61 | a success gives one route per candidate, in rule then host order, each the route makeRoute builds for that host |
| RouteProperties.RoutesNeedValidLoadBalancer | serving/ingress/pkg/reconciler/ingress/resources/route.go:110-112 | with a candidate and no disable annotation, a load balancer without a usable internal domain fails with ErrNoValidLoadbalancerDomain |
| RouteProperties.CollectIgnoresRules | serving/ingress/pkg/reconciler/ingress/resources/route.go:67-169 | makeRoute reads the ingress's TLS entries and options, never its rule list |
| RouteProperties.RoutesConcatenate | serving/ingress/pkg/reconciler/ingress/resources/route.go:43-62 | the routes of two rule lists joined are the first list's routes followed by the second's; the first error wins |
| RouteProperties.RoutesSkipClusterLocal | serving/ingress/pkg/reconciler/ingress/resources/route.go:44-47 | inserting a cluster-local rule anywhere changes nothing |
| RouteProperties.LastServiceWitness | serving/ingress/pkg/reconciler/ingress/resources/route.go:96-108 | a found service comes from a qualifying entry with no qualifying entry after it |
| RouteProperties.LastQualifyingIsFound | serving/ingress/pkg/reconciler/ingress/resources/route.go:96-108 | the last qualifying entry is the one the scan reports |
| RouteProperties.LastServiceIsLastQualifying | serving/ingress/pkg/reconciler/ingress/resources/route.go:96-108 | the scan finds p exactly when some entry names p and no later entry qualifies (the last match wins) |
| RouteProperties.LastServiceNone | serving/ingress/pkg/reconciler/ingress/resources/route.go:96-108 | nothing is found exactly when no entry qualifies |
| RouteProperties.ServiceOfDomain | serving/ingress/pkg/reconciler/ingress/resources/route.go:98-105 | an internal domain `service.namespace.svc…` names that service and namespace |
| RouteProperties.ServiceOfRejects | serving/ingress/pkg/reconciler/ingress/resources/route.go:98-102 | an empty internal domain, one with fewer than three labels, or one whose third label is not `svc` names nothing |
| RouteProperties.LoadBalancerTargetNone | serving/ingress/pkg/reconciler/ingress/resources/route.go:96-112 | no target exactly when there is no load balancer, no entry qualifies, or the last qualifying one has an empty service or namespace |
| RouteProperties.PolicyFromOption | serving/ingress/pkg/reconciler/ingress/resources/route.go:114-117 | without the legacy annotation: Redirect for HTTPOptionRedirected, otherwise Allow |
| RouteProperties.AnnotationOverridesOption | serving/ingress/pkg/reconciler/ingress/resources/route.go:119-132 | a non-empty legacy annotation decides alone; the HTTP option no longer matters |
| RouteProperties.PolicyCaseInsensitive | serving/ingress/pkg/reconciler/ingress/resources/route.go:122-131 | annotation values with the same lower-case form give the same policy or both fail |
| RouteProperties.PolicyError | serving/ingress/pkg/reconciler/ingress/resources/route.go:129-130 | failure exactly for a non-empty annotation whose lower-case form is neither `enabled` nor `redirected`, with the annotation as written in the message |
| RouteProperties.PolicyAnnotationExamples | serving/ingress/pkg/reconciler/ingress/resources/route.go:124-131 | `Enabled` gives Allow, `REDIRECTED` gives Redirect, `redirect` fails with itself in the message |
| RouteProperties.RouteForOutcomes | serving/ingress/pkg/reconciler/ingress/resources/route.go:74-132 | makeRoute's four outcomes and exactly when each occurs: skipped, load-balancer error, annotation error, a route |
| RouteProperties.PassthroughKeepsAnnotationError | serving/ingress/pkg/reconciler/ingress/resources/route.go:122-162 | passthrough does not excuse a bad legacy annotation, which is checked first |
| RouteProperties.RouteTLS | serving/ingress/pkg/reconciler/ingress/resources/route.go:141-166 | passthrough gives port `https`, Passthrough and Redirect; otherwise port `http2`, Edge and the derived policy |
| RouteProperties.RouteShape | serving/ingress/pkg/reconciler/ingress/resources/route.go:84-155 | host, name, namespace, labels with the three ingress keys overlaid, annotations plus the timeout, a Service target of weight 100, no wildcard |
| RouteProperties.DefaultTimeoutReadsBack | serving/ingress/pkg/reconciler/ingress/resources/route.go:33 | the timeout text is the decimal seconds followed by `s` and reads back as DefaultMaxRevisionTimeoutSeconds |
| RouteProperties.HashHostPrefix | serving/ingress/pkg/reconciler/ingress/resources/route.go:175-177 | hashHost is the hex of the first three digest bytes |
| RouteProperties.RouteNameParts | serving/ingress/pkg/reconciler/ingress/resources/route.go:171-173 | the name is `route-`, the UID, `-` and twelve hex digits that decode to hashHost's six characters |
| RouteProperties.RouteNameInjective | serving/ingress/pkg/reconciler/ingress/resources/route.go:171-177 | two names are equal exactly when the UIDs are equal and the hosts have the same hashHost |
| RouteProperties.SingleLabelHostDropped | serving/ingress/pkg/reconciler/ingress/resources/route.go:50-51 | a host of one label never reaches makeRoute |
| RouteProperties.ExternalHostLabels | serving/ingress/pkg/reconciler/ingress/resources/route.go:50-51 | a host of dot-free labels is considered exactly when it has two labels, or more with a third other than `svc` |
| RouteProperties.ExampleRouteFor | serving/ingress/pkg/reconciler/ingress/resources/route.go:134-157 | the route built for a concrete Kourier ingress: its namespace, service, port, TLS and policy |
| RouteProperties.ExampleRoutes | serving/ingress/pkg/reconciler/ingress/resources/route.go:40-65 | the concrete ingress translates to exactly one route, with its name, namespace, target, host, port and TLS |
| KubeVersion.CheckMinimumVersion | openshift-knative-operator/pkg/serving/extension_test.go:568-625 | a fetch error fails with its reason; the check passes exactly when both versions parse and the server's is at least the minimum |
| KubeVersion.Core | openshift-knative-operator/pkg/serving/extension_test.go:580-596 | the prefix before the first `-` or `+` suffix marker |
| KubeVersion.AtLeastTotalOrder | openshift-knative-operator/pkg/serving/extension_test.go:574-600 | the comparison is reflexive, transitive and total |
| KubeVersion.FormatRoundTrip | openshift-knative-operator/pkg/serving/extension_test.go:574-596 | the canonical `major.minor.patch` text parses back to the same version |
| KubeVersion.SuffixIgnored | openshift-knative-operator/pkg/serving/extension_test.go:580-596 | a pre-release or build suffix never changes the parsed version |
| KubeVersion.VPrefixIgnored | openshift-knative-operator/pkg/serving/extension_test.go:574-578 | one leading `v` never changes the parsed version |
| KubeVersion.SuffixedVersionParses | openshift-knative-operator/pkg/serving/extension_test.go:580-584 | every canonical version followed by a suffix parses to its numbers |
| KubeVersion.VSuffixedVersionParses | openshift-knative-operator/pkg/serving/extension_test.go:592-596 | the same with a leading `v` |
| KubeVersion.VPrefixedVersionParses | openshift-knative-operator/pkg/serving/extension_test.go:574-575 | a canonical version with a leading `v` parses to its numbers |
| KubeVersion.SameTriplePasses | openshift-knative-operator/pkg/serving/extension_test.go:589-596 | a server version equal to the minimum's numbers passes, whatever its decoration |
| KubeVersion.FetchErrorFails | openshift-knative-operator/pkg/serving/extension_test.go:602-604 | a fetch error fails the check whatever the minimum |
| KubeVersion.UnparsableFails | openshift-knative-operator/pkg/serving/extension_test.go:606-608 | an unparsable server version fails with that version's text |
| KubeVersion.PassesAgainstMinimum | openshift-knative-operator/pkg/serving/extension_test.go:611-615 | against 1.20.0, every server version parsing to at least 1.20.0 passes |
| KubeVersion.VersionTablePasses | openshift-knative-operator/pkg/serving/extension_test.go:574-596 | every passing row of the version table passes (six distinct versions) |
| KubeVersion.VersionTableFails | openshift-knative-operator/pkg/serving/extension_test.go:598-608 | the smaller version, the non-numeric patch and the fetch error fail, each with its reason |
| ServingExtension.Configure | openshift-knative-operator/pkg/serving/extension_test.go:123-124 | the entry has the value afterwards; every other entry is unchanged |
| ServingExtension.ConfigureIfUnset | openshift-knative-operator/pkg/serving/extension_test.go:142-156 | an existing entry leaves the configuration as it was; a missing one gets the value; every other entry is unchanged |
| ServingExtension.FirstOverrideFor | openshift-knative-operator/pkg/serving/extension_test.go:530-537 | the first position whose override names the container, or the length when none does |
| ServingExtension.EnsureContainerMemoryLimit | openshift-knative-operator/pkg/serving/extension_test.go:530-537 | the first override for the container gets the memory limit with all else kept; without one, a limit-only override is appended |
| ServingExtension.ActiveBackend | openshift-knative-operator/pkg/serving/extension_test.go:158-260 | a backend exactly when exactly one is enabled, and it is the enabled one |
| ServingExtension.ResolveIngress | openshift-knative-operator/pkg/serving/extension_test.go:217-240 | at least one backend is enabled afterwards; Istio and Contour are kept as they were |
| ServingExtension.KnativeServing.constructor | openshift-knative-operator/pkg/serving/extension_test.go:498-557 | a resource with the given namespace, spec and status |
| ServingExtension.Namespace.constructor | openshift-knative-operator/pkg/serving/extension_test.go:41-45 | a namespace with the given name and labels |
| ServingExtension.RecordGateFailures | openshift-knative-operator/pkg/serving/extension_test.go:302-309 | the status becomes ResolvedStatus; namespace and spec are untouched |
| ServingExtension.ApplyDefaults | openshift-knative-operator/pkg/serving/extension_test.go:498-557 | the spec becomes DefaultedSpec; namespace and status untouched |
| ServingExtension.ApplyIngressAndLogging | openshift-knative-operator/pkg/serving/extension_test.go:106-125 | the spec becomes the ingress-resolved then logging-templated spec; nothing else changes |
| ServingExtension.ApplyMonitoring | openshift-knative-operator/pkg/serving/extension_test.go:464-495 | the monitoring label and the disabled backend when the toggle is off |
| ServingExtension.Reconcile | openshift-knative-operator/pkg/serving/extension_test.go:312-336 | the namespace is kept; the spec is ResolvedSpec, the status ResolvedStatus; the namespace object gets the monitoring label |
| ServingProperties.ConfigureSame | openshift-knative-operator/pkg/serving/extension_test.go:294-300 | configuring an entry to the value it has changes nothing |
| ServingProperties.ConfigureIdempotent | openshift-knative-operator/pkg/serving/extension_test.go:294-300 | configuring twice equals configuring once |
| ServingProperties.ConfigureIfUnsetKeepsUser | openshift-knative-operator/pkg/serving/extension_test.go:142-156 | a user's value is never overwritten by a conditional default |
| ServingProperties.NilIngressHeals | openshift-knative-operator/pkg/serving/extension_test.go:543-548 | a missing ingress block resolves to Kourier alone, enabled, with ClusterIP |
| ServingProperties.DisabledIngressHeals | openshift-knative-operator/pkg/serving/extension_test.go:217-260 | a block with no backend enabled enables Kourier, keeping the user's service type or giving ClusterIP; the others stay disabled |
| ServingProperties.SingleBackendKept | openshift-knative-operator/pkg/serving/extension_test.go:177-215 | one enabled backend stays the only one, changed only by Kourier's default service type |
| ServingProperties.ExactlyOneBackend | openshift-knative-operator/pkg/serving/extension_test.go:158-260 | at most one enabled backend gives exactly one after resolution |
| ServingProperties.KourierServiceTypeSet | openshift-knative-operator/pkg/serving/extension_test.go:158-175 | an enabled Kourier always has a service type after resolution |
| ServingProperties.ResolveIngressIdempotent | openshift-knative-operator/pkg/serving/extension_test.go:294-300 | resolving a resolved block changes nothing |
| ServingProperties.FirstOverrideUnique | openshift-knative-operator/pkg/serving/extension_test.go:530-537 | the first override found at i is found there in any list that agrees up to i |
| ServingProperties.MemoryLimitEnsured | openshift-knative-operator/pkg/serving/extension_test.go:530-537 | the container's override keeps its position (or is appended), holds the limit and keeps its requests and other limits; other overrides are kept |
| ServingProperties.EnsureMemoryIdempotent | openshift-knative-operator/pkg/serving/extension_test.go:530-537 | ensuring the limit twice equals ensuring it once |
| ServingProperties.NetworkConfig | openshift-knative-operator/pkg/serving/extension_test.go:515-520 | the network step fills the domain template, claims and scheme keys the user left unset, keeping those the user set |
| ServingProperties.NetworkFrame | openshift-knative-operator/pkg/serving/extension_test.go:262-292 | the network step writes no entry but those three |
| ServingProperties.DefaultedConfig | openshift-knative-operator/pkg/serving/extension_test.go:508-521 | the defaults set the queue-proxy image, the cluster domain and the three network keys |
| ServingProperties.DefaultedFrame | openshift-knative-operator/pkg/serving/extension_test.go:508-521 | the defaults write no other entry |
| ServingProperties.IngressConfig | openshift-knative-operator/pkg/serving/extension_test.go:197-215 | the ingress step sets the active backend's class and, for Istio, the disabled observability backend, each only when unset |
| ServingProperties.IngressFrame | openshift-knative-operator/pkg/serving/extension_test.go:197-215 | the ingress step writes no other entry |
| ServingProperties.LoggingConfig | openshift-knative-operator/pkg/serving/extension_test.go:106-125 | an existing logging route sets the templated revision URL unless it is set |
| ServingProperties.LoggingFrame | openshift-knative-operator/pkg/serving/extension_test.go:106-125 | the logging step writes no other entry |
| ServingProperties.MonitoringConfig | openshift-knative-operator/pkg/serving/extension_test.go:430-435 | the toggle off with no backend writes the disabled backend |
| ServingProperties.MonitoringFrame | openshift-knative-operator/pkg/serving/extension_test.go:356-462 | the monitoring step writes no other entry |
| ServingProperties.LaterStepsKeep | openshift-knative-operator/pkg/serving/extension_test.go:498-557 | an entry written by the defaults keeps its value through the later steps |
| ServingProperties.ResolvedHighAvailability | openshift-knative-operator/pkg/serving/extension_test.go:78-90 | two replicas unless the user asked for a nonzero number, which is kept |
| ServingProperties.ResolvedRegistry | openshift-knative-operator/pkg/serving/extension_test.go:127-140 | the environment's images win over the user's overrides; the user's other overrides are kept; the default image is `IMAGE_default` |
| ServingProperties.ResolvedResources | openshift-knative-operator/pkg/serving/extension_test.go:530-537 | the webhook's memory limit is ensured |
| ServingProperties.ResolvedCustomCerts | openshift-knative-operator/pkg/serving/extension_test.go:92-104 | the service-CA config map unless the user named certificates, which are kept |
| ServingProperties.ResolvedIngress | openshift-knative-operator/pkg/serving/extension_test.go:158-260 | the resolved ingress block is the self-healed one |
| ServingProperties.ResolvedDefaultEntries | openshift-knative-operator/pkg/serving/extension_test.go:508-521 | the queue-proxy image, the cluster domain and the network defaults are in the resolved configuration |
| ServingProperties.ResolvedIngressClass | openshift-knative-operator/pkg/serving/extension_test.go:142-215 | the user's ingress class, else the class of the one enabled backend, else unset |
| ServingProperties.ResolvedObservabilityBackend | openshift-knative-operator/pkg/serving/extension_test.go:356-462 | the user's backend, else `none` when Istio is the ingress or the toggle is off, else unset |
| ServingProperties.ResolvedLoggingTemplate | openshift-knative-operator/pkg/serving/extension_test.go:106-125 | the user's template, else the logging route's, else unset |
| ServingProperties.ResolvedConfigFrame | openshift-knative-operator/pkg/serving/extension_test.go:262-292 | every entry reconciliation does not write is left as the user wrote it |
| ServingProperties.MonitoringLabel | openshift-knative-operator/pkg/serving/extension_test.go:487-493 | the label: an explicit backend decides, off exactly when it is `none`; otherwise off when Istio is the ingress or the toggle is off; the resolved spec agrees |
| ServingProperties.StatusOutcome | openshift-knative-operator/pkg/serving/extension_test.go:294-309 | the namespace failure wins, else a rejected version is recorded, else the status is kept; the dependencies condition is never touched |
| ServingProperties.AcceptedInstallUntouched | openshift-knative-operator/pkg/serving/extension_test.go:294-300 | an accepted version in the required namespace leaves the status as it was |
| ServingProperties.StatusIdempotent | openshift-knative-operator/pkg/serving/extension_test.go:302-309 | recording the gate failures twice equals recording them once |
| ServingProperties.MemoryLimitFixpoint | openshift-knative-operator/pkg/serving/extension_test.go:530-537 | a list that already holds the limit is left alone |
| ServingProperties.ResolvedSpecIsResolved | openshift-knative-operator/pkg/serving/extension_test.go:294-300 | reconciliation always produces a resolved spec |
| ServingProperties.DefaultsFixpoint | openshift-knative-operator/pkg/serving/extension_test.go:294-300 | the defaults leave a resolved spec alone |
| ServingProperties.LaterStepsFixpoint | openshift-knative-operator/pkg/serving/extension_test.go:294-300 | ingress, logging and monitoring leave a resolved spec alone |
| ServingProperties.ResolvedFixpoint | openshift-knative-operator/pkg/serving/extension_test.go:294-300 | reconciliation leaves a spec alone exactly when it is resolved |
| ServingProperties.ResolvedSpecIdempotent | openshift-knative-operator/pkg/serving/extension_test.go:294-300 | reconciling a reconciled spec changes neither the spec nor the monitoring label |
| ServingProperties.ConfigureCommute | openshift-knative-operator/pkg/serving/extension_test.go:207-215 | setting two different entries in either order gives the same configuration |
| ServingProperties.ConfigureOverwrite | openshift-knative-operator/pkg/serving/extension_test.go:154-156 | setting an entry twice keeps the second value |
| ServingProperties.ConfigureIfUnsetYields | openshift-knative-operator/pkg/serving/extension_test.go:142-156 | a conditional default yields to a user's entry whenever it was set |
| ServingProperties.DefaultsYield | openshift-knative-operator/pkg/serving/extension_test.go:262-292 | the defaults yield to a user's entry the same way |
| ServingProperties.UserEntryWins | openshift-knative-operator/pkg/serving/extension_test.go:142-292 | a user's entry, other than the queue-proxy image and the cluster domain, survives reconciliation and changes nothing else |
| ServingProperties.LaterStepsIgnoreFields | openshift-knative-operator/pkg/serving/extension_test.go:78-104 | ingress, logging and monitoring never look at the replicas, the certificates or the ingress block |
| ServingProperties.HighAvailabilityKept | openshift-knative-operator/pkg/serving/extension_test.go:78-90 | a nonzero replica count is kept and changes nothing else |
| ServingProperties.CustomCertsKept | openshift-knative-operator/pkg/serving/extension_test.go:92-104 | named certificates are kept and change nothing else |
| ServingProperties.ShadowedOverridesIgnored | openshift-knative-operator/pkg/serving/extension_test.go:127-140 | user overrides of images the environment names make no difference |
| ServingProperties.DefaultsIgnoreIngress | openshift-knative-operator/pkg/serving/extension_test.go:158-260 | the defaults never look at the ingress block |
| ServingProperties.IngressBlockKept | openshift-knative-operator/pkg/serving/extension_test.go:158-260 | replacing the ingress block by one with the same active backend changes only the resolved block |
| ServingCases.TestImageLookups | openshift-knative-operator/pkg/serving/extension_test.go:50-55 | the test environment's images: default `bar2`, queue-proxy `baz` |
| ServingCases.EmptyResolvesToBaseline | openshift-knative-operator/pkg/serving/extension_test.go:498-557 | an empty spec, up to the monitoring step, resolves to the baseline |
| ServingCases.AllNil | openshift-knative-operator/pkg/serving/extension_test.go:74-76 | "all nil": an empty spec resolves to the baseline |
| ServingCases.DifferentHighAvailability | openshift-knative-operator/pkg/serving/extension_test.go:78-90 | three replicas are kept over the baseline |
| ServingCases.DifferentCertificates | openshift-knative-operator/pkg/serving/extension_test.go:92-104 | the secret `foo` is kept over the baseline |
| ServingCases.ExistingLoggingRoute | openshift-knative-operator/pkg/serving/extension_test.go:106-125 | the kibana route's host is templated into the revision URL template |
| ServingCases.OverrideImageSettings | openshift-knative-operator/pkg/serving/extension_test.go:127-140 | overrides of environment-named images resolve to the baseline |
| ServingCases.EntryOverBaseline | openshift-knative-operator/pkg/serving/extension_test.go:142-292 | one user entry comes out set over the baseline |
| ServingCases.OverrideIngressClass | openshift-knative-operator/pkg/serving/extension_test.go:142-156 | the user's ingress class `foo` is kept |
| ServingCases.OverrideUrlScheme | openshift-knative-operator/pkg/serving/extension_test.go:262-276 | the user's scheme `http` is kept |
| ServingCases.OverrideAutocreateClaims | openshift-knative-operator/pkg/serving/extension_test.go:278-292 | the user's `false` is kept |
| ServingCases.KourierBlock | openshift-knative-operator/pkg/serving/extension_test.go:158-260 | a block whose resolution keeps Kourier as the only backend comes out as the baseline with that block |
| ServingCases.DefaultKourierServiceType | openshift-knative-operator/pkg/serving/extension_test.go:158-175 | an enabled Kourier without a service type gets ClusterIP |
| ServingCases.OverrideKourierServiceType | openshift-knative-operator/pkg/serving/extension_test.go:177-195 | the LoadBalancer service type is kept |
| ServingCases.FixWrongIngressConfig | openshift-knative-operator/pkg/serving/extension_test.go:217-240 | all backends disabled self-heal to Kourier with ClusterIP |
| ServingCases.RespectKourierSettings | openshift-knative-operator/pkg/serving/extension_test.go:242-260 | a disabled Kourier with ClusterIP is enabled with its service type kept |
| ServingCases.IstioIngressStep | openshift-knative-operator/pkg/serving/extension_test.go:207-215 | with Istio alone, the ingress step writes Istio's class and the disabled backend |
| ServingCases.DefaultsLeaveIngressEntries | openshift-knative-operator/pkg/serving/extension_test.go:508-521 | the defaults of an empty spec set neither the ingress class nor the observability backend |
| ServingCases.OverrideIngressConfig | openshift-knative-operator/pkg/serving/extension_test.go:197-215 | Istio gets its ingress class and the disabled observability backend over the baseline |
| ServingCases.RespectsDifferentStatus | openshift-knative-operator/pkg/serving/extension_test.go:294-300 | a resolved resource with dependencies installed stays as it is |
| ServingCases.WrongNamespaceMessage | openshift-knative-operator/pkg/serving/extension_test.go:308 | the failure message quotes the required namespace |
| ServingCases.WrongNamespaceCase | openshift-knative-operator/pkg/serving/extension_test.go:302-309 | the resource in namespace `foo` is marked failed with that message and otherwise resolved |
| ServingCases.MonitoringTable | openshift-knative-operator/pkg/serving/extension_test.go:356-462 | all nine toggle and backend combinations: an explicit backend is kept and decides the label; otherwise the label follows the toggle, and off writes `none` |
| ServingCases.RunMonitoringCase | openshift-knative-operator/pkg/serving/extension_test.go:464-495 | one run: a fresh resource and namespace, reconciled, give the expected spec and monitoring label |
| KafkaChannelDefaults.DefaultedCounts | vendor/knative.dev/eventing-kafka/pkg/apis/messaging/v1beta1/kafka_channel_defaults.go:43-50 | a zero count takes its default, a nonzero one is kept |
| KafkaChannelDefaults.DefaultedAnnotations | vendor/knative.dev/eventing-kafka/pkg/apis/messaging/v1beta1/kafka_channel_defaults.go:32-38 | the duck-version annotation is present; the keys are the old ones plus it; old values are kept; it is `v1` when it was absent |
| KafkaChannelDefaults.KafkaChannelSpec.SetDefaults | vendor/knative.dev/eventing-kafka/pkg/apis/messaging/v1beta1/kafka_channel_defaults.go:43-50 | the counts become DefaultedCounts of the old counts; the retention is kept |
| KafkaChannelDefaults.KafkaChannel.SetDefaults | vendor/knative.dev/eventing-kafka/pkg/apis/messaging/v1beta1/kafka_channel_defaults.go:26-41 | the annotations become DefaultedAnnotations of the old ones (a nil map included); the spec is defaulted |
| KafkaChannelDefaults.DefaultedCountsIdempotent | vendor/knative.dev/eventing-kafka/pkg/apis/messaging/v1beta1/kafka_channel_defaults.go:43-50 | defaulting twice equals defaulting once |
| KafkaChannelDefaults.DefaultedCountsFixpoint | vendor/knative.dev/eventing-kafka/pkg/apis/messaging/v1beta1/kafka_channel_defaults.go:43-50 | counts are left alone exactly when no zero count has a nonzero default |
| KafkaChannelDefaults.DefaultedCountsNonzero | vendor/knative.dev/eventing-kafka/pkg/apis/messaging/v1beta1/kafka_channel_defaults.go:43-50 | with nonzero defaults, no count is zero afterwards |
| KafkaChannelDefaults.DefaultedAnnotationsIdempotent | vendor/knative.dev/eventing-kafka/pkg/apis/messaging/v1beta1/kafka_channel_defaults.go:32-38 | defaulting the annotations twice equals once |
| KafkaChannelDefaults.NilAnnotationsDefaulted | vendor/knative.dev/eventing-kafka/pkg/apis/messaging/v1beta1/kafka_channel_defaults.go:32-37 | a nil map becomes a map holding only the duck-version annotation `v1` |
| KafkaChannelDefaults.ExistingDuckVersionKept | vendor/knative.dev/eventing-kafka/pkg/apis/messaging/v1beta1/kafka_channel_defaults.go:36-38 | an existing duck-version annotation is kept whatever its value |
| KafkaChannelDefaults.SetDefaultsTwice | vendor/knative.dev/eventing-kafka/pkg/apis/messaging/v1beta1/kafka_channel_defaults.go:26-50 | SetDefaults twice leaves the channel as SetDefaults once does |

## Left out

- I/O and the cluster are out of scope. The Kubernetes and OpenShift clients, discovery, the fake servers, the process environment and the monitoring toggle's environment variable become the `ClusterFacts` parameter. The route objects are values, not API objects. In Go, whenever `ci.Annotations` is not nil, every route's `Annotations` is the ingress's own map object (route.go:69, route.go:139), so all routes and the ingress share one map. That sharing is not modelled: each route holds a copy. Nothing in the modelled code writes through that alias once a route is built.
- The serving extension's implementation file is not part of this model. Its behaviour is modelled from its table tests and the `ks()` baseline. Where the tests pin nothing, the model makes the choices below.
- ServingExtension.WithIngress: when several backends are enabled, the model leaves `ingress.class` and the observability backend unset, because no test pins that case.
- ServingExtension.WithIngress: for Istio, the class and the disabled observability backend are written only when unset. The only Istio case (extension_test.go:197-215) starts from an empty configuration, so an unconditional write would satisfy it too.
- ServingExtension.WithImages: user overrides of images the environment does not name are kept. The test only pins overrides the environment also names.
- ServingExtension.EnsureContainerMemoryLimit: the vendored helper is not part of this model. The model sets the limit on the first override for the container, or appends a new override.
- ServingExtension.WithHighAvailability: a replica count of 0 is treated like a missing block and becomes 2.
- ServingExtension.Message: the version-failure text is a parameter (`versionFailureMessage`). Only the wrong-namespace message is a literal, and it uses `%q` quoting for a plain name, without escaping.
- ServingExtension.ResolvedStatus: when both gates fail, the namespace failure is the one recorded. Applying the spec defaults after a failure, whether of the namespace gate or of the version gate, is the model's choice. No test pins it: the "wrong namespace" case (extension_test.go:302-309) starts from the already resolved `ks()`, so its expected output is the same whether Reconcile applies the defaults or returns right after marking the install failed.
- KubeVersion.ParseVersion: only `major.minor.patch` with one optional leading `v` and an ignored `-`/`+` suffix is recognised. Full semantic-version grammar, including leading-zero rejection and pre-release precedence, is not modelled.
- Status conditions: only "dependencies installed" and "install failed" are modelled. Timestamps and other conditions are left out.
- Constants whose values lie outside the modelled files become `OperatorConstants` fields. These are the ingress class names, the domain template, the observability config-map name and key, the logging URL template, the monitoring label key, the minimum version and the webhook memory. `networking.IngressLabelKey`, `networking.HTTPOptionAnnotationKey` and `messaging.SubscribableDuckVersionAnnotation` use their upstream values.
- `resource.Quantity` is kept as its text. No quantity parsing is modelled.
- Resources.HashHost: SHA-256 is the parameter `sum256`. Its internals, including collision resistance, are not modelled.
- `Text.ToLower` is exact only where the result is compared with ASCII words. Go's full Unicode case mapping of other characters is not modelled.
- Resources.MakeRoutes: the Go function's nested loop is split into `MakeRoutes` (rules) and `MakeRuleRoutes` (hosts of one rule), and the body of the host loop is the method `MakeHostRoute`.
- Resources.MakeRoute: three points where a reader might assume otherwise:
  - the last qualifying load-balancer entry wins, not the first (route.go:97-107);
  - the HTTP option is ingress-level (`ci.Spec.HTTPOption`), not per rule (route.go:115);
  - the name suffix is twelve hex digits, the `%x` of hashHost's six-character string (route.go:172, route.go:176).
- ServingExtension.Reconcile is split into four step methods, which it calls in order.
- Reconciling twice is stated on the specification functions (`ResolvedSpecIdempotent`, `StatusIdempotent`), not as a method that runs `Reconcile` twice.
- KafkaChannelDefaults: the channel's spec is a separate object that the channel holds. The default counts are parameters, since `constants.DefaultNumPartitions` and `constants.DefaultReplicationFactor` are not part of this model. The context argument is dropped.
- Concurrency and API-server conflicts are out of scope.
