/**
 * Translation of a Knative Ingress into OpenShift Routes
 * (serving/ingress/pkg/reconciler/ingress/resources/route.go).
 *
 * The pure definitions (RouteFor, Routes and the small functions they are
 * built from) say what the translation computes; the methods MakeRoute and
 * MakeRoutes follow the Go code step by step over a mutable Ingress object
 * and are proved to compute exactly that. The properties of the
 * specification are in module RouteProperties.
 */
module Resources {
  import opened Wrappers
  import opened Text

  const TimeoutAnnotation := "haproxy.router.openshift.io/timeout"
  const DisableRouteAnnotation := "serving.knative.openshift.io/disableRoute"
  const EnablePassthroughRouteAnnotation := "serving.knative.openshift.io/enablePassthrough"

  const HTTPPort := "http2"
  const HTTPSPort := "https"

  const OpenShiftIngressLabelKey := "serving.knative.openshift.io/ingressName"
  const OpenShiftIngressNamespaceLabelKey := "serving.knative.openshift.io/ingressNamespace"

  /** networking.IngressLabelKey of knative.dev/networking. */
  const IngressLabelKey := "networking.internal.knative.dev/ingress"
  /** networking.HTTPOptionAnnotationKey of knative.dev/networking (the legacy override). */
  const HTTPOptionAnnotationKey := "networking.knative.dev/http-option"

  // ---------------------------------------------------------------------------
  // The Knative Ingress

  datatype Visibility = ExternalIP | ClusterLocal
  datatype HTTPOption = HTTPOptionUnset | HTTPOptionEnabled | HTTPOptionRedirected

  datatype IngressRule = IngressRule(hosts: seq<string>, visibility: Visibility)
  datatype IngressTLS = IngressTLS(hosts: seq<string>, secretName: string, secretNamespace: string)
  datatype IngressSpec = IngressSpec(rules: seq<IngressRule>, tls: seq<IngressTLS>, httpOption: HTTPOption)

  datatype LoadBalancerIngressStatus = LoadBalancerIngressStatus(domainInternal: string)
  datatype LoadBalancerStatus = LoadBalancerStatus(ingress: seq<LoadBalancerIngressStatus>)

  /** A snapshot of an Ingress object; `annotations == None` is a nil map. */
  datatype IngressValue = IngressValue(
    name: string,
    namespace: string,
    uid: string,
    labels: map<string, string>,
    annotations: Option<map<string, string>>,
    spec: IngressSpec,
    publicLoadBalancer: Option<LoadBalancerStatus>)

  /**
   * The `*Ingress` object MakeRoutes receives. Only its annotations
   * are written (by makeRoute, through the aliased map), so they are the one
   * mutable field.
   */
  class Ingress {
    const name: string
    const namespace: string
    const uid: string
    const labels: map<string, string>
    var annotations: Option<map<string, string>>
    const spec: IngressSpec
    const publicLoadBalancer: Option<LoadBalancerStatus>

    constructor (v: IngressValue)
      ensures Value() == v
    {
      name, namespace, uid, labels := v.name, v.namespace, v.uid, v.labels;
      annotations, spec, publicLoadBalancer := v.annotations, v.spec, v.publicLoadBalancer;
    }

    function Value(): IngressValue
      reads this
    {
      IngressValue(name, namespace, uid, labels, annotations, spec, publicLoadBalancer)
    }
  }

  // ---------------------------------------------------------------------------
  // The OpenShift Route

  datatype TLSTermination = Edge | Passthrough
  datatype InsecureEdgeTerminationPolicy = Allow | Redirect
  datatype WildcardPolicy = WildcardPolicyNone

  datatype RouteTargetReference = RouteTargetReference(kind: string, name: string, weight: int)
  datatype TLSConfig = TLSConfig(termination: TLSTermination, insecureEdgeTerminationPolicy: InsecureEdgeTerminationPolicy)
  datatype RouteSpec = RouteSpec(
    host: string,
    targetPort: string,
    to: RouteTargetReference,
    tls: TLSConfig,
    wildcardPolicy: WildcardPolicy)
  datatype Route = Route(
    name: string,
    namespace: string,
    labels: map<string, string>,
    annotations: map<string, string>,
    spec: RouteSpec)

  datatype RouteError =
    | NoValidLoadbalancerDomain
    | IncorrectHTTPOptionAnnotation(annotation: string)

  /** The text of the error, as the Go errors print. */
  function ErrorMessage(e: RouteError): string
  {
    match e
    case NoValidLoadbalancerDomain => "unable to find Ingress LoadBalancer with DomainInternal set"
    case IncorrectHTTPOptionAnnotation(a) => "incorrect HTTPOption annotation: " + a
  }

  /** A SHA-256 digest: 32 bytes. */
  type Digest = d: seq<byte> | |d| == 32 witness seq(32, _ => 0 as byte)

  /**
   * What the translation takes from outside route.go: SHA-256, left
   * uninterpreted, and config.DefaultMaxRevisionTimeoutSeconds.
   */
  datatype RouteEnv = RouteEnv(sum256: string -> Digest, maxRevisionTimeoutSeconds: nat)

  /** DefaultTimeout: `fmt.Sprintf("%vs", config.DefaultMaxRevisionTimeoutSeconds)`. */
  function DefaultTimeout(env: RouteEnv): string
  {
    Decimal(env.maxRevisionTimeoutSeconds) + "s"
  }

  // ---------------------------------------------------------------------------
  // Names

  /** hashHost: the first six hex digits of the SHA-256 of the host. */
  function HashHost(sum256: string -> Digest, host: string): (h: string)
    ensures |h| == 6 && IsAscii(h)
    ensures forall i :: 0 <= i < |h| ==> IsHexDigit(h[i])
  {
    HexEncode(sum256(host))[0..6]
  }

  /**
   * routeName: `"route-" + uid + "-"` followed by `%x` of hashHost's string,
   * that is the hex digits of the six hex-digit characters.
   */
  function RouteName(sum256: string -> Digest, uid: string, host: string): string
  {
    "route-" + uid + "-" + HexEncode(AsciiBytes(HashHost(sum256, host)))
  }

  // ---------------------------------------------------------------------------
  // Host filter and load balancer

  /** Whether MakeRoutes considers a host: two dot-labels, or more with a third label other than "svc". */
  predicate IsExternalHost(host: string)
  {
    var parts := Split(host, '.');
    |parts| == 2 || (|parts| > 2 && parts[2] != "svc")
  }

  /** The (service, namespace) a load-balancer entry names when its DomainInternal reads `service.namespace.svc...`. */
  function ServiceOf(e: LoadBalancerIngressStatus): Option<(string, string)>
  {
    if e.domainInternal == "" then None
    else
      var parts := Split(e.domainInternal, '.');
      if |parts| > 2 && parts[2] == "svc" then Some((parts[0], parts[1])) else None
  }

  /** The entry that the scan of route.go keeps: the last one that qualifies. */
  function LastService(entries: seq<LoadBalancerIngressStatus>): Option<(string, string)>
    decreases |entries|
  {
    if entries == [] then None
    else match ServiceOf(entries[|entries| - 1])
      case Some(p) => Some(p)
      case None => LastService(entries[..|entries| - 1])
  }

  /** The scanned pair, ("", "") when nothing qualifies. */
  function ScannedService(lb: Option<LoadBalancerStatus>): (string, string)
  {
    if lb.None? then ("", "")
    else match LastService(lb.value.ingress)
      case Some(p) => p
      case None => ("", "")
  }

  /** Target service and namespace of every route, or None: ErrNoValidLoadbalancerDomain. */
  function LoadBalancerTarget(lb: Option<LoadBalancerStatus>): Option<(string, string)>
  {
    var p := ScannedService(lb);
    if p.0 == "" || p.1 == "" then None else Some(p)
  }

  // ---------------------------------------------------------------------------
  // TLS decision, labels, annotations

  /** The ingress's annotations, a nil map read as empty. */
  function AnnotationsOf(v: IngressValue): map<string, string>
  {
    if v.annotations.Some? then v.annotations.value else map[]
  }

  predicate RouteDisabled(v: IngressValue)
  {
    DisableRouteAnnotation in AnnotationsOf(v)
  }

  /** Passthrough is chosen by the annotation or by any TLS entry in the ingress spec. */
  predicate WantsPassthrough(v: IngressValue)
  {
    EnablePassthroughRouteAnnotation in AnnotationsOf(v) || |v.spec.tls| > 0
  }

  /** Value of a map entry, "" when absent (Go's map index). */
  function Lookup(m: map<string, string>, k: string): string
  {
    if k in m then m[k] else ""
  }

  /** The insecure-edge policy derived from the HTTP option and the legacy annotation. */
  function InsecurePolicyFor(option: HTTPOption, annotations: map<string, string>): Result<InsecureEdgeTerminationPolicy, RouteError>
  {
    var fromOption := if option == HTTPOptionRedirected then Redirect else Allow;
    var a := Lookup(annotations, HTTPOptionAnnotationKey);
    if a == "" then Ok(fromOption)
    else if ToLower(a) == "enabled" then Ok(Allow)
    else if ToLower(a) == "redirected" then Ok(Redirect)
    else Err(IncorrectHTTPOptionAnnotation(a))
  }

  /** The ingress's labels overlaid (kmeta.UnionMaps, right-biased) with the name and namespace labels. */
  function RouteLabels(v: IngressValue): map<string, string>
  {
    v.labels + map[IngressLabelKey := v.name, OpenShiftIngressLabelKey := v.name, OpenShiftIngressNamespaceLabelKey := v.namespace]
  }

  /** The ingress's annotations with the timeout written in. */
  function RouteAnnotations(v: IngressValue, env: RouteEnv): map<string, string>
  {
    AnnotationsOf(v)[TimeoutAnnotation := DefaultTimeout(env)]
  }

  /** The annotations field of the ingress once makeRoute has written the timeout through it. */
  function Stamped(annotations: Option<map<string, string>>, env: RouteEnv): Option<map<string, string>>
  {
    if annotations.Some? then Some(annotations.value[TimeoutAnnotation := DefaultTimeout(env)]) else None
  }

  // ---------------------------------------------------------------------------
  // The specification of makeRoute and MakeRoutes

  /** makeRoute: Ok(None) for a skipped host, Ok(Some(route)), or the error that aborts the translation. */
  function RouteFor(v: IngressValue, host: string, rule: IngressRule, env: RouteEnv): Result<Option<Route>, RouteError>
  {
    if rule.visibility == ClusterLocal || RouteDisabled(v) then Ok(None)
    else match LoadBalancerTarget(v.publicLoadBalancer)
      case None => Err(NoValidLoadbalancerDomain)
      case Some(target) =>
        match InsecurePolicyFor(v.spec.httpOption, AnnotationsOf(v))
        case Err(e) => Err(e)
        case Ok(policy) =>
          var passthrough := WantsPassthrough(v);
          Ok(Some(Route(
            RouteName(env.sum256, v.uid, host),
            target.1,
            RouteLabels(v),
            RouteAnnotations(v, env),
            RouteSpec(
              host,
              if passthrough then HTTPSPort else HTTPPort,
              RouteTargetReference("Service", target.0, 100),
              if passthrough then TLSConfig(Passthrough, Redirect) else TLSConfig(Edge, policy),
              WildcardPolicyNone))))
  }

  /** A host that MakeRoutes hands to makeRoute, with its rule. */
  datatype Candidate = Candidate(rule: IngressRule, host: string)

  /** The external hosts among `hosts`, in order. */
  function HostCandidates(rule: IngressRule, hosts: seq<string>): seq<Candidate>
    decreases |hosts|
  {
    if hosts == [] then []
    else
      var last := hosts[|hosts| - 1];
      HostCandidates(rule, hosts[..|hosts| - 1]) + (if IsExternalHost(last) then [Candidate(rule, last)] else [])
  }

  /** The candidates of one rule: none for a cluster-local rule. */
  function RuleCandidates(rule: IngressRule): seq<Candidate>
  {
    if rule.visibility == ClusterLocal then [] else HostCandidates(rule, rule.hosts)
  }

  /** All candidates, in rule order and then host order. */
  function Candidates(rules: seq<IngressRule>): seq<Candidate>
    decreases |rules|
  {
    if rules == [] then []
    else Candidates(rules[..|rules| - 1]) + RuleCandidates(rules[|rules| - 1])
  }

  /** What makeRoute gives for each candidate. */
  type Maker = Candidate -> Result<Option<Route>, RouteError>

  function MakerOf(v: IngressValue, env: RouteEnv): Maker
  {
    (c: Candidate) => RouteFor(v, c.host, c.rule, env)
  }

  /** The routes that `make` gives for the candidates, in order, or the first error. */
  function Collect(make: Maker, cands: seq<Candidate>): Result<seq<Route>, RouteError>
    decreases |cands|
  {
    if cands == [] then Ok([])
    else
      match Collect(make, cands[..|cands| - 1])
      case Err(e) => Err(e)
      case Ok(routes) =>
        match make(cands[|cands| - 1])
        case Err(e) => Err(e)
        case Ok(None) => Ok(routes)
        case Ok(Some(r)) => Ok(routes + [r])
  }

  /** MakeRoutes. */
  function Routes(v: IngressValue, env: RouteEnv): Result<seq<Route>, RouteError>
  {
    Collect(MakerOf(v, env), Candidates(v.spec.rules))
  }

  /** Whether MakeRoutes reaches the timeout write of makeRoute at least once. */
  predicate TouchesAnnotations(v: IngressValue)
  {
    !RouteDisabled(v) && |Candidates(v.spec.rules)| > 0
  }

  // ---------------------------------------------------------------------------
  // Facts the methods need

  /** The timeout written into the ingress's own map changes no later makeRoute. */
  lemma RouteForIgnoresStamp(v: IngressValue, host: string, rule: IngressRule, env: RouteEnv)
    ensures RouteFor(v.(annotations := Stamped(v.annotations, env)), host, rule, env) == RouteFor(v, host, rule, env)
  {
    var w := v.(annotations := Stamped(v.annotations, env));
    if v.annotations.Some? {
      var a := v.annotations.value;
      assert AnnotationsOf(w) == a[TimeoutAnnotation := DefaultTimeout(env)];
      assert RouteAnnotations(w, env) == RouteAnnotations(v, env);
      assert Lookup(AnnotationsOf(w), HTTPOptionAnnotationKey) == Lookup(AnnotationsOf(v), HTTPOptionAnnotationKey);
    }
  }

  lemma StampedTwice(a: Option<map<string, string>>, env: RouteEnv)
    ensures Stamped(Stamped(a, env), env) == Stamped(a, env)
  {
    if a.Some? {
      assert a.value[TimeoutAnnotation := DefaultTimeout(env)][TimeoutAnnotation := DefaultTimeout(env)]
          == a.value[TimeoutAnnotation := DefaultTimeout(env)];
    }
  }

  lemma {:induction false} CollectErrPersists(make: Maker, a: seq<Candidate>, b: seq<Candidate>, e: RouteError)
    requires Collect(make, a) == Err(e)
    ensures Collect(make, a + b) == Err(e)
    decreases |b|
  {
    if b == [] {
      assert a + b == a;
    } else {
      var b' := b[..|b| - 1];
      CollectErrPersists(make, a, b', e);
      assert (a + b)[..|a + b| - 1] == a + b';
    }
  }

  lemma {:induction false} HostCandidatesAppend(rule: IngressRule, h1: seq<string>, h2: seq<string>)
    ensures HostCandidates(rule, h1 + h2) == HostCandidates(rule, h1) + HostCandidates(rule, h2)
    decreases |h2|
  {
    if h2 == [] {
      assert h1 + h2 == h1;
    } else {
      var h2' := h2[..|h2| - 1];
      HostCandidatesAppend(rule, h1, h2');
      assert (h1 + h2)[..|h1 + h2| - 1] == h1 + h2';
    }
  }

  /** The concatenation of `f` over `xs`, in order. */
  function Flatten<A, B>(xs: seq<A>, f: A -> seq<B>): seq<B>
    decreases |xs|
  {
    if xs == [] then [] else Flatten(xs[..|xs| - 1], f) + f(xs[|xs| - 1])
  }

  lemma {:induction false} FlattenAppend<A, B>(xs: seq<A>, ys: seq<A>, f: A -> seq<B>)
    ensures Flatten(xs + ys, f) == Flatten(xs, f) + Flatten(ys, f)
    decreases |ys|
  {
    if ys == [] {
      assert xs + ys == xs;
    } else {
      FlattenAppend(xs, ys[..|ys| - 1], f);
      assert (xs + ys)[..|xs + ys| - 1] == xs + ys[..|ys| - 1];
    }
  }

  lemma {:induction false} CandidatesFlatten(rules: seq<IngressRule>)
    ensures Candidates(rules) == Flatten(rules, RuleCandidates)
    decreases |rules|
  {
    if rules != [] {
      CandidatesFlatten(rules[..|rules| - 1]);
    }
  }

  lemma CandidatesAppend(r1: seq<IngressRule>, r2: seq<IngressRule>)
    ensures Candidates(r1 + r2) == Candidates(r1) + Candidates(r2)
  {
    CandidatesFlatten(r1 + r2);
    CandidatesFlatten(r1);
    CandidatesFlatten(r2);
    FlattenAppend(r1, r2, RuleCandidates);
  }

  lemma HostCandidatesStep(rule: IngressRule, hosts: seq<string>, j: nat)
    requires j < |hosts|
    ensures IsExternalHost(hosts[j]) ==> HostCandidates(rule, hosts[..j + 1]) == HostCandidates(rule, hosts[..j]) + [Candidate(rule, hosts[j])]
    ensures !IsExternalHost(hosts[j]) ==> HostCandidates(rule, hosts[..j + 1]) == HostCandidates(rule, hosts[..j])
  {
    assert hosts[..j + 1][..j] == hosts[..j];
  }

  lemma CandidatesStep(rules: seq<IngressRule>, i: nat)
    requires i < |rules|
    ensures Candidates(rules[..i + 1]) == Candidates(rules[..i]) + RuleCandidates(rules[i])
  {
    assert rules[..i + 1][..i] == rules[..i];
  }

  lemma CollectStep(make: Maker, done: seq<Candidate>, c: Candidate)
    ensures Collect(make, done + [c])
         == match Collect(make, done)
            case Err(e) => Err(e)
            case Ok(routes) =>
              match make(c)
              case Err(e) => Err(e)
              case Ok(None) => Ok(routes)
              case Ok(Some(r)) => Ok(routes + [r])
  {
    assert (done + [c])[..|done|] == done;
  }

  lemma CandidatesSplitAt(rules: seq<IngressRule>, i: nat)
    requires i < |rules|
    ensures Candidates(rules) == Candidates(rules[..i]) + RuleCandidates(rules[i]) + Candidates(rules[i + 1..])
  {
    assert rules == rules[..i + 1] + rules[i + 1..];
    CandidatesAppend(rules[..i + 1], rules[i + 1..]);
    CandidatesStep(rules, i);
  }

  /** An error met within the first i + 1 rules is the error of the whole translation. */
  lemma RoutesErrAfter(v: IngressValue, env: RouteEnv, i: nat, e: RouteError)
    requires i < |v.spec.rules|
    requires Collect(MakerOf(v, env), Candidates(v.spec.rules[..i + 1])) == Err(e)
    ensures Routes(v, env) == Err(e)
  {
    var rules := v.spec.rules;
    assert rules == rules[..i + 1] + rules[i + 1..];
    CandidatesAppend(rules[..i + 1], rules[i + 1..]);
    CollectErrPersists(MakerOf(v, env), Candidates(rules[..i + 1]), Candidates(rules[i + 1..]), e);
  }

  /** Collecting over two lists is collecting over the first, then the second. */
  lemma {:induction false} CollectAppend(make: Maker, a: seq<Candidate>, b: seq<Candidate>)
    ensures Collect(make, a + b)
         == match Collect(make, a)
            case Err(e) => Err(e)
            case Ok(x) =>
              match Collect(make, b)
              case Err(e) => Err(e)
              case Ok(y) => Ok(x + y)
    decreases |b|
  {
    if b == [] {
      assert a + b == a;
      if Collect(make, a).Ok? {
        assert Collect(make, a).value + [] == Collect(make, a).value;
      }
    } else {
      var b' := b[..|b| - 1];
      CollectAppend(make, a, b');
      assert (a + b)[..|a + b| - 1] == a + b';
      assert (a + b)[|a + b| - 1] == b[|b| - 1];
      if Collect(make, a).Ok? && Collect(make, b').Ok? {
        var x, y := Collect(make, a).value, Collect(make, b').value;
        match make(b[|b| - 1])
        case Err(_) =>
        case Ok(None) =>
        case Ok(Some(rt)) =>
          assert x + y + [rt] == x + (y + [rt]);
      }
    }
  }

  /** The timeout written by an earlier rule changes no later result. */
  lemma {:induction false} CollectIgnoresStamp(v: IngressValue, env: RouteEnv, cands: seq<Candidate>)
    ensures Collect(MakerOf(v.(annotations := Stamped(v.annotations, env)), env), cands) == Collect(MakerOf(v, env), cands)
    decreases |cands|
  {
    if cands != [] {
      CollectIgnoresStamp(v, env, cands[..|cands| - 1]);
      var c := cands[|cands| - 1];
      RouteForIgnoresStamp(v, c.host, c.rule, env);
    }
  }

  lemma StampKeepsDisabled(v: IngressValue, env: RouteEnv)
    ensures RouteDisabled(v.(annotations := Stamped(v.annotations, env))) == RouteDisabled(v)
  {
  }

  // ---------------------------------------------------------------------------
  // The Go code, step by step

  /** One host of MakeRuleRoutes: what makeRoute gave extends the translation, and the stamp stays as it was. */
  lemma HostStep(v: IngressValue, env: RouteEnv, c: Candidate, done: seq<Candidate>, routes: seq<Route>,
                 w: IngressValue, after: Option<map<string, string>>, res: Result<Option<Route>, RouteError>)
    requires c.rule.visibility != ClusterLocal
    requires w == v.(annotations := if !RouteDisabled(v) && done != [] then Stamped(v.annotations, env) else v.annotations)
    requires res == RouteFor(w, c.host, c.rule, env)
    requires after == if !RouteDisabled(w) then Stamped(w.annotations, env) else w.annotations
    requires Collect(MakerOf(v, env), done) == Ok(routes)
    ensures after == if !RouteDisabled(v) then Stamped(v.annotations, env) else v.annotations
    ensures Collect(MakerOf(v, env), done + [c])
         == match res
            case Err(e) => Err(e)
            case Ok(None) => Ok(routes)
            case Ok(Some(r)) => Ok(routes + [r])
  {
    RouteForIgnoresStamp(v, c.host, c.rule, env);
    StampedTwice(v.annotations, env);
    StampKeepsDisabled(v, env);
    CollectStep(MakerOf(v, env), done, c);
  }

  /** An error at host j of a rule is the error of the whole rule. */
  lemma HostErrEndsRule(make: Maker, rule: IngressRule, j: nat, e: RouteError)
    requires rule.visibility != ClusterLocal && j < |rule.hosts|
    requires Collect(make, HostCandidates(rule, rule.hosts[..j + 1])) == Err(e)
    ensures Collect(make, RuleCandidates(rule)) == Err(e)
  {
    CollectErrPersists(make, HostCandidates(rule, rule.hosts[..j + 1]), HostCandidates(rule, rule.hosts[j + 1..]), e);
    assert rule.hosts == rule.hosts[..j + 1] + rule.hosts[j + 1..];
    HostCandidatesAppend(rule, rule.hosts[..j + 1], rule.hosts[j + 1..]);
  }

  /**
   * makeRoute. It writes the timeout into `ci.Annotations` itself when that
   * map is not nil (the Go code aliases it), after the skip checks and before
   * the load-balancer lookup.
   */
  method MakeRoute(ci: Ingress, host: string, rule: IngressRule, env: RouteEnv) returns (r: Result<Option<Route>, RouteError>)
    modifies ci
    ensures ci.Value() == old(ci.Value()).(annotations := ci.annotations)
    ensures r == RouteFor(old(ci.Value()), host, rule, env)
    ensures ci.annotations
         == if rule.visibility != ClusterLocal && !RouteDisabled(old(ci.Value()))
            then Stamped(old(ci.annotations), env) else old(ci.annotations)
  {
    ghost var v := ci.Value();
    var annotations := if ci.annotations.Some? then ci.annotations.value else map[];

    if rule.visibility == ClusterLocal {
      return Ok(None);
    }
    if DisableRouteAnnotation in annotations {
      return Ok(None);
    }

    annotations := annotations[TimeoutAnnotation := DefaultTimeout(env)];
    if ci.annotations.Some? {
      ci.annotations := Some(annotations);
    }

    var labels := ci.labels + map[IngressLabelKey := ci.name, OpenShiftIngressLabelKey := ci.name,
                                  OpenShiftIngressNamespaceLabelKey := ci.namespace];
    var name := RouteName(env.sum256, ci.uid, host);
    var serviceName := "";
    var namespace := "";
    if ci.publicLoadBalancer.Some? {
      var entries := ci.publicLoadBalancer.value.ingress;
      var k := 0;
      while k < |entries|
        invariant 0 <= k <= |entries|
        invariant (serviceName, namespace) == ScannedService(Some(LoadBalancerStatus(entries[..k])))
      {
        if entries[k].domainInternal != "" {
          var parts := Split(entries[k].domainInternal, '.');
          if |parts| > 2 && parts[2] == "svc" {
            serviceName := parts[0];
            namespace := parts[1];
          }
        }
        assert entries[..k + 1][..k] == entries[..k];
        k := k + 1;
      }
      assert entries[..k] == entries;
    }

    if serviceName == "" || namespace == "" {
      return Err(NoValidLoadbalancerDomain);
    }

    var terminationPolicy := Allow;
    if ci.spec.httpOption == HTTPOptionRedirected {
      terminationPolicy := Redirect;
    }

    if Lookup(annotations, HTTPOptionAnnotationKey) != "" {
      var annotation := Lookup(annotations, HTTPOptionAnnotationKey);
      var lower := ToLower(annotation);
      if lower == "enabled" {
        terminationPolicy := Allow;
      } else if lower == "redirected" {
        terminationPolicy := Redirect;
      } else {
        return Err(IncorrectHTTPOptionAnnotation(annotation));
      }
    }

    assert LoadBalancerTarget(v.publicLoadBalancer) == Some((serviceName, namespace));
    assert InsecurePolicyFor(v.spec.httpOption, AnnotationsOf(v)) == Ok(terminationPolicy);
    var route := Route(name, namespace, labels, annotations,
      RouteSpec(host, HTTPPort, RouteTargetReference("Service", serviceName, 100),
                TLSConfig(Edge, terminationPolicy), WildcardPolicyNone));

    if EnablePassthroughRouteAnnotation in annotations || |ci.spec.tls| > 0 {
      route := route.(spec := route.spec.(targetPort := HTTPSPort));
      route := route.(spec := route.spec.(tls := route.spec.tls.(termination := Passthrough)));
      route := route.(spec := route.spec.(tls := route.spec.tls.(insecureEdgeTerminationPolicy := Redirect)));
    }

    return Ok(Some(route));
  }

  /**
   * One pass of the inner loop of MakeRoutes, for host `j` of a rule that is
   * not cluster-local: a host that is not external is ignored; otherwise
   * makeRoute runs on an ingress whose map may already carry the timeout.
   * Stated as one more step of Collect over the original ingress.
   */
  method MakeHostRoute(ci: Ingress, rule: IngressRule, j: nat, env: RouteEnv, routes: seq<Route>,
                       ghost v: IngressValue, ghost done: seq<Candidate>)
    returns (res: Result<seq<Route>, RouteError>, ghost done': seq<Candidate>)
    requires rule.visibility != ClusterLocal && j < |rule.hosts|
    requires ci.Value() == v.(annotations := ci.annotations)
    requires done == HostCandidates(rule, rule.hosts[..j])
    requires Collect(MakerOf(v, env), done) == Ok(routes)
    requires ci.annotations == if !RouteDisabled(v) && done != [] then Stamped(v.annotations, env) else v.annotations
    modifies ci
    ensures ci.Value() == v.(annotations := ci.annotations)
    ensures done' == HostCandidates(rule, rule.hosts[..j + 1])
    ensures res == Collect(MakerOf(v, env), done')
    ensures ci.annotations == if !RouteDisabled(v) && done' != [] then Stamped(v.annotations, env) else v.annotations
  {
    var host := rule.hosts[j];
    HostCandidatesStep(rule, rule.hosts, j);
    if !IsExternalHost(host) {
      return Ok(routes), done;
    }
    ghost var c := Candidate(rule, host);
    ghost var w := ci.Value();
    var made := MakeRoute(ci, host, rule, env);
    HostStep(v, env, c, done, routes, w, ci.annotations, made);
    done' := done + [c];
    match made
    case Err(e) => res := Err(e);
    case Ok(None) => res := Ok(routes);
    case Ok(Some(route)) => res := Ok(routes + [route]);
  }

  /**
   * The inner loop of MakeRoutes, over the hosts of one rule that is not
   * cluster-local: every external host goes through makeRoute, and the
   * first error ends the loop.
   */
  method MakeRuleRoutes(ci: Ingress, rule: IngressRule, env: RouteEnv) returns (r: Result<seq<Route>, RouteError>)
    requires rule.visibility != ClusterLocal
    modifies ci
    ensures ci.Value() == old(ci.Value()).(annotations := ci.annotations)
    ensures r == Collect(MakerOf(old(ci.Value()), env), RuleCandidates(rule))
    ensures ci.annotations
         == if !RouteDisabled(old(ci.Value())) && RuleCandidates(rule) != []
            then Stamped(old(ci.annotations), env) else old(ci.annotations)
  {
    ghost var v := ci.Value();
    ghost var make := MakerOf(v, env);
    ghost var done: seq<Candidate> := [];
    var routes: seq<Route> := [];
    var j := 0;
    assert rule.hosts[..0] == [];
    while j < |rule.hosts|
      invariant 0 <= j <= |rule.hosts|
      invariant ci.Value() == v.(annotations := ci.annotations)
      invariant done == HostCandidates(rule, rule.hosts[..j])
      invariant Collect(make, done) == Ok(routes)
      invariant ci.annotations == if !RouteDisabled(v) && done != [] then Stamped(v.annotations, env) else v.annotations
    {
      var res;
      res, done := MakeHostRoute(ci, rule, j, env, routes, v, done);
      if res.Err? {
        HostErrEndsRule(make, rule, j, res.error);
        return Err(res.error);
      }
      routes := res.value;
      j := j + 1;
    }
    assert rule.hosts[..j] == rule.hosts;
    return Ok(routes);
  }

  /**
   * MakeRoutes: the outer loop over the rules, which skips cluster-local
   * rules, gathers every route in order and returns nothing but the error as
   * soon as one makeRoute fails.
   */
  method MakeRoutes(ci: Ingress, env: RouteEnv) returns (r: Result<seq<Route>, RouteError>)
    modifies ci
    ensures r == Routes(old(ci.Value()), env)
    ensures ci.annotations
         == if TouchesAnnotations(old(ci.Value())) then Stamped(old(ci.annotations), env) else old(ci.annotations)
  {
    ghost var v := ci.Value();
    ghost var make := MakerOf(v, env);
    var rules := ci.spec.rules;
    var routes: seq<Route> := [];
    var i := 0;
    while i < |rules|
      invariant 0 <= i <= |rules|
      invariant ci.Value() == v.(annotations := ci.annotations)
      invariant Collect(make, Candidates(rules[..i])) == Ok(routes)
      invariant ci.annotations
             == if !RouteDisabled(v) && Candidates(rules[..i]) != [] then Stamped(v.annotations, env) else v.annotations
    {
      var rule := rules[i];
      CandidatesStep(rules, i);
      if rule.visibility == ClusterLocal {
        assert RuleCandidates(rule) == [];
        assert Candidates(rules[..i + 1]) == Candidates(rules[..i]);
        i := i + 1;
        continue;
      }
      CollectIgnoresStamp(v, env, RuleCandidates(rule));
      StampedTwice(v.annotations, env);
      StampKeepsDisabled(v, env);
      CollectAppend(make, Candidates(rules[..i]), RuleCandidates(rule));
      ghost var before := ci.annotations;
      assert RouteDisabled(ci.Value()) == RouteDisabled(v);
      assert Collect(MakerOf(ci.Value(), env), RuleCandidates(rule)) == Collect(make, RuleCandidates(rule)) by {
        if before != v.annotations {
          assert ci.Value() == v.(annotations := Stamped(v.annotations, env));
        } else {
          assert ci.Value() == v;
        }
      }
      var rr := MakeRuleRoutes(ci, rule, env);
      assert |Candidates(rules[..i + 1])| == |Candidates(rules[..i])| + |RuleCandidates(rule)|;
      assert ci.annotations == if !RouteDisabled(v) && RuleCandidates(rule) != [] then Stamped(before, env) else before;
      match rr {
        case Err(e) =>
          RoutesErrAfter(v, env, i, e);
          return Err(e);
        case Ok(more) =>
          assert Collect(make, RuleCandidates(rule)) == Ok(more);
          assert Collect(make, Candidates(rules[..i]) + RuleCandidates(rule)) == Ok(routes + more);
          routes := routes + more;
      }
      i := i + 1;
    }
    assert rules[..i] == rules;
    return Ok(routes);
  }
}
