/**
 * Properties of the route translation of route.go, proved about the
 * specification functions of module Resources (and so, through the
 * contracts of MakeRoute and MakeRoutes, about the imperative code).
 */
module RouteProperties {
  import opened Wrappers
  import opened Text
  import opened Resources

  // ---------------------------------------------------------------------------
  // All-or-nothing collection, in order

  /** Collect fails exactly when some candidate fails. */
  lemma {:induction false} CollectErrIffSomeErr(make: Maker, cands: seq<Candidate>)
    ensures Collect(make, cands).Err? <==> exists k :: 0 <= k < |cands| && make(cands[k]).Err?
    decreases |cands|
  {
    if cands != [] {
      var init := cands[..|cands| - 1];
      CollectErrIffSomeErr(make, init);
      if exists k :: 0 <= k < |init| && make(init[k]).Err? {
        var k :| 0 <= k < |init| && make(init[k]).Err?;
        assert make(cands[k]).Err?;
      }
      if exists k :: 0 <= k < |cands| && make(cands[k]).Err? {
        var k :| 0 <= k < |cands| && make(cands[k]).Err?;
        if k < |init| {
          assert make(init[k]).Err?;
        }
      }
    }
  }

  /** The error Collect gives is that of the first failing candidate. */
  lemma CollectFirstErr(make: Maker, cands: seq<Candidate>, k: nat)
    requires k < |cands| && make(cands[k]).Err?
    requires forall m :: 0 <= m < k ==> make(cands[m]).Ok?
    ensures Collect(make, cands) == Err(make(cands[k]).error)
  {
    var prefix := cands[..k];
    CollectErrIffSomeErr(make, prefix);
    assert !exists m :: 0 <= m < |prefix| && make(prefix[m]).Err? by {
      forall m | 0 <= m < |prefix| ensures make(prefix[m]).Ok? {
        assert prefix[m] == cands[m];
      }
    }
    CollectStep(make, prefix, cands[k]);
    assert prefix + [cands[k]] == cands[..k + 1];
    assert cands == cands[..k + 1] + cands[k + 1..];
    CollectErrPersists(make, cands[..k + 1], cands[k + 1..], make(cands[k]).error);
  }

  /** When no candidate is skipped, the result holds one route per candidate, in candidate order. */
  lemma {:induction false} CollectOnePerCandidate(make: Maker, cands: seq<Candidate>, rs: seq<Route>)
    requires Collect(make, cands) == Ok(rs)
    requires forall k :: 0 <= k < |cands| ==> make(cands[k]) != Ok(None)
    ensures |rs| == |cands|
    ensures forall k :: 0 <= k < |cands| ==> make(cands[k]) == Ok(Some(rs[k]))
    decreases |cands|
  {
    if cands != [] {
      var init := cands[..|cands| - 1];
      var last := cands[|cands| - 1];
      match Collect(make, init)
      case Err(e) =>
      case Ok(rs') =>
        CollectOnePerCandidate(make, init, rs');
        match make(last)
        case Err(_) =>
        case Ok(None) =>
        case Ok(Some(r)) =>
          assert rs == rs' + [r];
          forall k | 0 <= k < |cands| ensures make(cands[k]) == Ok(Some(rs[k])) {
            if k < |init| {
              assert cands[k] == init[k];
            }
          }
    }
  }

  /** When every candidate is skipped, the result is the empty list. */
  lemma {:induction false} CollectNone(make: Maker, cands: seq<Candidate>)
    requires forall k :: 0 <= k < |cands| ==> make(cands[k]) == Ok(None)
    ensures Collect(make, cands) == Ok([])
    decreases |cands|
  {
    if cands != [] {
      var init := cands[..|cands| - 1];
      forall k | 0 <= k < |init| ensures make(init[k]) == Ok(None) {
        assert init[k] == cands[k];
      }
      CollectNone(make, init);
    }
  }

  // ---------------------------------------------------------------------------
  // Which hosts reach makeRoute

  /** The candidates of a host list are exactly its external hosts. */
  lemma {:induction false} HostCandidatesOrigins(rule: IngressRule, hosts: seq<string>)
    ensures forall k :: 0 <= k < |HostCandidates(rule, hosts)| ==>
              var c := HostCandidates(rule, hosts)[k]; c.rule == rule && c.host in hosts && IsExternalHost(c.host)
    ensures forall j :: 0 <= j < |hosts| && IsExternalHost(hosts[j]) ==> Candidate(rule, hosts[j]) in HostCandidates(rule, hosts)
    decreases |hosts|
  {
    if hosts != [] {
      var init := hosts[..|hosts| - 1];
      HostCandidatesOrigins(rule, init);
      forall j | 0 <= j < |hosts| && IsExternalHost(hosts[j])
        ensures Candidate(rule, hosts[j]) in HostCandidates(rule, hosts)
      {
        if j < |init| {
          assert hosts[j] == init[j];
        }
      }
    }
  }

  /**
   * MakeRoutes hands to makeRoute exactly the external hosts of the rules
   * that are not cluster-local (route.go:43-51).
   */
  lemma {:induction false} CandidateOrigins(rules: seq<IngressRule>)
    ensures forall k :: 0 <= k < |Candidates(rules)| ==>
              var c := Candidates(rules)[k];
              c.rule in rules && c.rule.visibility != ClusterLocal && c.host in c.rule.hosts && IsExternalHost(c.host)
    ensures forall i, j :: 0 <= i < |rules| && 0 <= j < |rules[i].hosts|
              && rules[i].visibility != ClusterLocal && IsExternalHost(rules[i].hosts[j])
              ==> Candidate(rules[i], rules[i].hosts[j]) in Candidates(rules)
    decreases |rules|
  {
    if rules != [] {
      var init := rules[..|rules| - 1];
      var last := rules[|rules| - 1];
      CandidateOrigins(init);
      HostCandidatesOrigins(last, last.hosts);
      assert Candidates(rules) == Candidates(init) + RuleCandidates(last);
      forall i, j | 0 <= i < |rules| && 0 <= j < |rules[i].hosts|
          && rules[i].visibility != ClusterLocal && IsExternalHost(rules[i].hosts[j])
        ensures Candidate(rules[i], rules[i].hosts[j]) in Candidates(rules)
      {
        if i < |init| {
          assert rules[i] == init[i];
        }
      }
    }
  }

  // ---------------------------------------------------------------------------
  // MakeRoutes

  /**
   * Fail-fast: MakeRoutes fails exactly when makeRoute fails for some
   * candidate, and then with the error of the first such candidate and no
   * routes at all (route.go:52-55).
   */
  lemma RoutesFailFast(v: IngressValue, env: RouteEnv)
    ensures var cands := Candidates(v.spec.rules);
      Routes(v, env).Err? <==> exists k :: 0 <= k < |cands| && RouteFor(v, cands[k].host, cands[k].rule, env).Err?
    ensures var cands := Candidates(v.spec.rules);
      forall k :: 0 <= k < |cands| && RouteFor(v, cands[k].host, cands[k].rule, env).Err?
        && (forall m :: 0 <= m < k ==> RouteFor(v, cands[m].host, cands[m].rule, env).Ok?)
        ==> Routes(v, env) == Err(RouteFor(v, cands[k].host, cands[k].rule, env).error)
  {
    var cands := Candidates(v.spec.rules);
    var make := MakerOf(v, env);
    CollectErrIffSomeErr(make, cands);
    forall k | 0 <= k < |cands| && RouteFor(v, cands[k].host, cands[k].rule, env).Err?
        && (forall m :: 0 <= m < k ==> RouteFor(v, cands[m].host, cands[m].rule, env).Ok?)
      ensures Routes(v, env) == Err(RouteFor(v, cands[k].host, cands[k].rule, env).error)
    {
      assert forall m :: 0 <= m < k ==> make(cands[m]).Ok?;
      CollectFirstErr(make, cands, k);
    }
  }

  /**
   * The disable-route annotation gives no routes and no error, whatever the
   * load balancer says (route.go:80-82).
   */
  lemma RoutesDisabled(v: IngressValue, env: RouteEnv)
    requires RouteDisabled(v)
    ensures Routes(v, env) == Ok([])
  {
    var cands := Candidates(v.spec.rules);
    assert forall k :: 0 <= k < |cands| ==> MakerOf(v, env)(cands[k]) == Ok(None);
    CollectNone(MakerOf(v, env), cands);
  }

  /**
   * Without the disable-route annotation, a successful MakeRoutes gives one
   * route per candidate, in rule order and then host order: the route
   * makeRoute builds for that host (route.go:43-61).
   */
  lemma RoutesInOrder(v: IngressValue, env: RouteEnv, rs: seq<Route>)
    requires !RouteDisabled(v) && Routes(v, env) == Ok(rs)
    ensures |rs| == |Candidates(v.spec.rules)|
    ensures forall k :: 0 <= k < |rs| ==>
              var c := Candidates(v.spec.rules)[k];
              RouteFor(v, c.host, c.rule, env) == Ok(Some(rs[k])) && rs[k].spec.host == c.host
  {
    var cands := Candidates(v.spec.rules);
    var make := MakerOf(v, env);
    CandidateOrigins(v.spec.rules);
    forall k | 0 <= k < |cands| ensures make(cands[k]) != Ok(None) {
      assert cands[k].rule.visibility != ClusterLocal;
    }
    CollectOnePerCandidate(make, cands, rs);
  }

  /**
   * Without the disable-route annotation and with at least one candidate
   * host, a load balancer without a usable internal domain fails the whole
   * translation (route.go:110-112).
   */
  lemma RoutesNeedValidLoadBalancer(v: IngressValue, env: RouteEnv)
    requires !RouteDisabled(v) && Candidates(v.spec.rules) != []
    requires LoadBalancerTarget(v.publicLoadBalancer).None?
    ensures Routes(v, env) == Err(NoValidLoadbalancerDomain)
  {
    var cands := Candidates(v.spec.rules);
    CandidateOrigins(v.spec.rules);
    assert cands[0].rule.visibility != ClusterLocal;
    CollectFirstErr(MakerOf(v, env), cands, 0);
  }

  /** makeRoute looks at the ingress's TLS entries and options, never at its rules. */
  lemma {:induction false} CollectIgnoresRules(v: IngressValue, rules: seq<IngressRule>, env: RouteEnv, cands: seq<Candidate>)
    ensures Collect(MakerOf(v.(spec := v.spec.(rules := rules)), env), cands) == Collect(MakerOf(v, env), cands)
    decreases |cands|
  {
    if cands != [] {
      CollectIgnoresRules(v, rules, env, cands[..|cands| - 1]);
      var c := cands[|cands| - 1];
      assert RouteFor(v.(spec := v.spec.(rules := rules)), c.host, c.rule, env) == RouteFor(v, c.host, c.rule, env);
    }
  }

  /**
   * The routes of two rule lists joined are the routes of the first
   * followed by the routes of the second; the first error wins.
   */
  lemma RoutesConcatenate(v: IngressValue, r1: seq<IngressRule>, r2: seq<IngressRule>, env: RouteEnv)
    ensures Routes(v.(spec := v.spec.(rules := r1 + r2)), env)
         == match Routes(v.(spec := v.spec.(rules := r1)), env)
            case Err(e) => Err(e)
            case Ok(a) =>
              match Routes(v.(spec := v.spec.(rules := r2)), env)
              case Err(e) => Err(e)
              case Ok(b) => Ok(a + b)
  {
    var w, w1, w2 := v.(spec := v.spec.(rules := r1 + r2)), v.(spec := v.spec.(rules := r1)), v.(spec := v.spec.(rules := r2));
    CandidatesAppend(r1, r2);
    CollectAppend(MakerOf(w, env), Candidates(r1), Candidates(r2));
    CollectIgnoresRules(v, r1 + r2, env, Candidates(r1));
    CollectIgnoresRules(v, r1 + r2, env, Candidates(r2));
    CollectIgnoresRules(v, r1, env, Candidates(r1));
    CollectIgnoresRules(v, r2, env, Candidates(r2));
  }

  /** A cluster-local rule, wherever it stands, changes nothing (route.go:45-47). */
  lemma RoutesSkipClusterLocal(v: IngressValue, r1: seq<IngressRule>, rule: IngressRule, r2: seq<IngressRule>, env: RouteEnv)
    requires rule.visibility == ClusterLocal
    ensures Routes(v.(spec := v.spec.(rules := r1 + [rule] + r2)), env) == Routes(v.(spec := v.spec.(rules := r1 + r2)), env)
  {
    var head := r1 + [rule];
    assert Candidates(head) == Candidates(r1) by {
      assert head[..|head| - 1] == r1;
    }
    CandidatesAppend(head, r2);
    CandidatesAppend(r1, r2);
    var cands := Candidates(r1 + r2);
    assert Candidates(head + r2) == cands;
    CollectIgnoresRules(v, head + r2, env, cands);
    CollectIgnoresRules(v, r1 + r2, env, cands);
  }

  // ---------------------------------------------------------------------------
  // The load-balancer scan

  /** Where LastService's answer comes from: a qualifying entry with none qualifying after it. */
  lemma {:induction false} LastServiceWitness(entries: seq<LoadBalancerIngressStatus>) returns (k: nat)
    requires LastService(entries).Some?
    ensures k < |entries| && ServiceOf(entries[k]) == LastService(entries)
    ensures forall m :: k < m < |entries| ==> ServiceOf(entries[m]).None?
    decreases |entries|
  {
    var n := |entries| - 1;
    if ServiceOf(entries[n]).Some? {
      k := n;
    } else {
      var init := entries[..n];
      k := LastServiceWitness(init);
      assert entries[k] == init[k];
      assert forall m :: k < m < n ==> entries[m] == init[m];
    }
  }

  /** A qualifying entry with none qualifying after it is what LastService gives. */
  lemma {:induction false} LastQualifyingIsFound(entries: seq<LoadBalancerIngressStatus>, k: nat)
    requires k < |entries| && ServiceOf(entries[k]).Some?
    requires forall m :: k < m < |entries| ==> ServiceOf(entries[m]).None?
    ensures LastService(entries) == ServiceOf(entries[k])
    decreases |entries|
  {
    var n := |entries| - 1;
    if k < n {
      var init := entries[..n];
      assert entries[k] == init[k];
      assert forall m :: k < m < n ==> entries[m] == init[m];
      LastQualifyingIsFound(init, k);
    }
  }

  /**
   * The scan keeps the last entry that qualifies: LastService gives p
   * exactly when some entry names p and no later entry qualifies
   * (route.go:96-108).
   */
  lemma LastServiceIsLastQualifying(entries: seq<LoadBalancerIngressStatus>, p: (string, string))
    ensures LastService(entries) == Some(p)
        <==> exists k :: 0 <= k < |entries| && ServiceOf(entries[k]) == Some(p)
                         && forall m :: k < m < |entries| ==> ServiceOf(entries[m]).None?
  {
    if LastService(entries) == Some(p) {
      var k := LastServiceWitness(entries);
    }
    if exists k :: 0 <= k < |entries| && ServiceOf(entries[k]) == Some(p)
                   && forall m :: k < m < |entries| ==> ServiceOf(entries[m]).None? {
      var k :| 0 <= k < |entries| && ServiceOf(entries[k]) == Some(p)
               && forall m :: k < m < |entries| ==> ServiceOf(entries[m]).None?;
      LastQualifyingIsFound(entries, k);
    }
  }

  /** Nothing is found exactly when no entry qualifies. */
  lemma {:induction false} LastServiceNone(entries: seq<LoadBalancerIngressStatus>)
    ensures LastService(entries).None? <==> forall k :: 0 <= k < |entries| ==> ServiceOf(entries[k]).None?
    decreases |entries|
  {
    if entries != [] {
      var init := entries[..|entries| - 1];
      LastServiceNone(init);
      assert forall k :: 0 <= k < |init| ==> init[k] == entries[k];
    }
  }

  lemma DomainLabels(service: string, namespace: string, tail: seq<string>)
    requires '.' !in service && '.' !in namespace
    requires forall i :: 0 <= i < |tail| ==> '.' !in tail[i]
    ensures var parts := Split(Join([service, namespace, "svc"] + tail, '.'), '.');
      |parts| > 2 && parts[0] == service && parts[1] == namespace && parts[2] == "svc"
  {
    assert '.' !in "svc" by {
      assert forall c | c in "svc" :: c == 's' || c == 'v' || c == 'c';
    }
    SplitJoinLabels([service, namespace, "svc"], tail, '.');
  }

  lemma ServiceOfLabels(d: string, service: string, namespace: string)
    requires var parts := Split(d, '.'); |parts| > 2 && parts[0] == service && parts[1] == namespace && parts[2] == "svc"
    ensures ServiceOf(LoadBalancerIngressStatus(d)) == Some((service, namespace))
  {
    assert d != "" by {
      assert Split("", '.') == [""];
    }
  }

  /**
   * An internal domain `service.namespace.svc` followed by further labels
   * names that service and namespace (route.go:100-106).
   */
  lemma ServiceOfDomain(service: string, namespace: string, tail: seq<string>)
    requires '.' !in service && '.' !in namespace
    requires forall i :: 0 <= i < |tail| ==> '.' !in tail[i]
    ensures ServiceOf(LoadBalancerIngressStatus(Join([service, namespace, "svc"] + tail, '.'))) == Some((service, namespace))
  {
    DomainLabels(service, namespace, tail);
    ServiceOfLabels(Join([service, namespace, "svc"] + tail, '.'), service, namespace);
  }

  /** An internal domain with fewer than three labels, or whose third label is not "svc", names nothing. */
  lemma ServiceOfRejects(e: LoadBalancerIngressStatus)
    requires var parts := Split(e.domainInternal, '.'); |parts| <= 2 || parts[2] != "svc"
    ensures ServiceOf(e).None?
  {
  }

  /**
   * The target is missing, and every route fails, exactly when there is no
   * load balancer, no entry qualifies, or the last one that does has an
   * empty service or namespace label (route.go:110-112).
   */
  lemma LoadBalancerTargetNone(lb: Option<LoadBalancerStatus>)
    ensures LoadBalancerTarget(lb).None?
        <==> lb.None?
             || (forall k :: 0 <= k < |lb.value.ingress| ==> ServiceOf(lb.value.ingress[k]).None?)
             || (LastService(lb.value.ingress).Some?
                 && (LastService(lb.value.ingress).value.0 == "" || LastService(lb.value.ingress).value.1 == ""))
  {
    if lb.Some? {
      LastServiceNone(lb.value.ingress);
    }
  }

  // ---------------------------------------------------------------------------
  // The insecure-edge policy

  /** Without the legacy annotation the policy follows the HTTP option: Redirect for Redirected, else Allow (route.go:114-118). */
  lemma PolicyFromOption(option: HTTPOption, annotations: map<string, string>)
    requires Lookup(annotations, HTTPOptionAnnotationKey) == ""
    ensures InsecurePolicyFor(option, annotations) == Ok(if option == HTTPOptionRedirected then Redirect else Allow)
  {
  }

  /** A non-empty legacy annotation decides alone: the HTTP option no longer matters (route.go:120-132). */
  lemma AnnotationOverridesOption(o1: HTTPOption, o2: HTTPOption, annotations: map<string, string>)
    requires Lookup(annotations, HTTPOptionAnnotationKey) != ""
    ensures InsecurePolicyFor(o1, annotations) == InsecurePolicyFor(o2, annotations)
  {
  }

  /**
   * The annotation is read case-insensitively: two values with the same
   * lower-case form give the same policy, or both fail (route.go:122-131).
   */
  lemma PolicyCaseInsensitive(option: HTTPOption, annotations: map<string, string>, s: string, t: string)
    requires s != "" && t != "" && ToLower(s) == ToLower(t)
    ensures InsecurePolicyFor(option, annotations[HTTPOptionAnnotationKey := s]).Ok?
        <==> InsecurePolicyFor(option, annotations[HTTPOptionAnnotationKey := t]).Ok?
    ensures InsecurePolicyFor(option, annotations[HTTPOptionAnnotationKey := s]).Ok? ==>
              InsecurePolicyFor(option, annotations[HTTPOptionAnnotationKey := s])
              == InsecurePolicyFor(option, annotations[HTTPOptionAnnotationKey := t])
  {
    assert Lookup(annotations[HTTPOptionAnnotationKey := s], HTTPOptionAnnotationKey) == s;
    assert Lookup(annotations[HTTPOptionAnnotationKey := t], HTTPOptionAnnotationKey) == t;
  }

  /**
   * The policy fails exactly for a non-empty annotation whose lower-case
   * form is neither "enabled" nor "redirected", and the error carries the
   * annotation as written (route.go:129-130).
   */
  lemma PolicyError(option: HTTPOption, annotations: map<string, string>)
    ensures var a := Lookup(annotations, HTTPOptionAnnotationKey);
      (InsecurePolicyFor(option, annotations).Err? <==> a != "" && ToLower(a) != "enabled" && ToLower(a) != "redirected")
    ensures InsecurePolicyFor(option, annotations).Err? ==>
              InsecurePolicyFor(option, annotations).error == IncorrectHTTPOptionAnnotation(Lookup(annotations, HTTPOptionAnnotationKey))
  {
  }

  /** ToLower of an upper-case ASCII word. */
  lemma ToLowerAscii(s: string, t: string)
    requires |s| == |t|
    requires forall i :: 0 <= i < |s| ==> ('A' <= s[i] <= 'Z' && t[i] as int == s[i] as int + 32) || ('a' <= s[i] <= 'z' && t[i] == s[i])
    ensures ToLower(s) == t
  {
    var r := ToLower(s);
    forall i | 0 <= i < |s|
      ensures r[i] == t[i]
    {
      LowerAsciiLetter(s[i], t[i]);
    }
  }

  lemma LowerAsciiLetter(c: char, d: char)
    requires ('A' <= c <= 'Z' && d as int == c as int + 32) || ('a' <= c <= 'z' && d == c)
    ensures LowerRune(c) == d
  {
  }

  /** Concrete legacy values: any case of "enabled" gives Allow and of "redirected" Redirect; others fail. */
  lemma PolicyAnnotationExamples(option: HTTPOption, annotations: map<string, string>)
    ensures InsecurePolicyFor(option, annotations[HTTPOptionAnnotationKey := "Enabled"]) == Ok(Allow)
    ensures InsecurePolicyFor(option, annotations[HTTPOptionAnnotationKey := "REDIRECTED"]) == Ok(Redirect)
    ensures InsecurePolicyFor(option, annotations[HTTPOptionAnnotationKey := "redirect"])
         == Err(IncorrectHTTPOptionAnnotation("redirect"))
  {
    ToLowerAscii("Enabled", "enabled");
    ToLowerAscii("REDIRECTED", "redirected");
    ToLowerAscii("redirect", "redirect");
    assert Lookup(annotations[HTTPOptionAnnotationKey := "Enabled"], HTTPOptionAnnotationKey) == "Enabled";
    assert Lookup(annotations[HTTPOptionAnnotationKey := "REDIRECTED"], HTTPOptionAnnotationKey) == "REDIRECTED";
    assert Lookup(annotations[HTTPOptionAnnotationKey := "redirect"], HTTPOptionAnnotationKey) == "redirect";
  }

  // ---------------------------------------------------------------------------
  // makeRoute

  /**
   * The four outcomes of makeRoute and exactly when each occurs: skipped
   * for a cluster-local rule or a disabled ingress, the load-balancer error,
   * the annotation error, or a route (route.go:75-82, 110-132).
   */
  lemma RouteForOutcomes(v: IngressValue, host: string, rule: IngressRule, env: RouteEnv)
    ensures RouteFor(v, host, rule, env) == Ok(None) <==> rule.visibility == ClusterLocal || RouteDisabled(v)
    ensures RouteFor(v, host, rule, env) == Err(NoValidLoadbalancerDomain)
        <==> rule.visibility != ClusterLocal && !RouteDisabled(v) && LoadBalancerTarget(v.publicLoadBalancer).None?
    ensures RouteFor(v, host, rule, env).Err? && RouteFor(v, host, rule, env).error.IncorrectHTTPOptionAnnotation?
        <==> rule.visibility != ClusterLocal && !RouteDisabled(v) && LoadBalancerTarget(v.publicLoadBalancer).Some?
             && InsecurePolicyFor(v.spec.httpOption, AnnotationsOf(v)).Err?
    ensures RouteFor(v, host, rule, env).Ok? && RouteFor(v, host, rule, env).value.Some?
        <==> rule.visibility != ClusterLocal && !RouteDisabled(v) && LoadBalancerTarget(v.publicLoadBalancer).Some?
             && InsecurePolicyFor(v.spec.httpOption, AnnotationsOf(v)).Ok?
  {
  }

  /**
   * Passthrough does not excuse a bad legacy annotation: the annotation is
   * checked before the passthrough override (route.go:120-134).
   */
  lemma PassthroughKeepsAnnotationError(v: IngressValue, host: string, rule: IngressRule, env: RouteEnv, e: RouteError)
    requires rule.visibility != ClusterLocal && !RouteDisabled(v) && LoadBalancerTarget(v.publicLoadBalancer).Some?
    requires InsecurePolicyFor(v.spec.httpOption, AnnotationsOf(v)) == Err(e)
    ensures RouteFor(v, host, rule, env) == Err(e)
  {
  }

  /**
   * The TLS decision: passthrough (by annotation or any TLS entry) gives port
   * "https", Passthrough and Redirect whatever the policy; otherwise port
   * "http2", Edge and the option-derived policy (route.go:134-166).
   */
  lemma RouteTLS(v: IngressValue, host: string, rule: IngressRule, env: RouteEnv, r: Route)
    requires RouteFor(v, host, rule, env) == Ok(Some(r))
    ensures WantsPassthrough(v) ==>
              r.spec.targetPort == HTTPSPort && r.spec.tls == TLSConfig(Passthrough, Redirect)
    ensures !WantsPassthrough(v) ==>
              r.spec.targetPort == HTTPPort && r.spec.tls.termination == Edge
              && InsecurePolicyFor(v.spec.httpOption, AnnotationsOf(v)) == Ok(r.spec.tls.insecureEdgeTerminationPolicy)
  {
  }

  lemma LabelKeysDistinct()
    ensures IngressLabelKey != OpenShiftIngressLabelKey
    ensures IngressLabelKey != OpenShiftIngressNamespaceLabelKey
    ensures OpenShiftIngressLabelKey != OpenShiftIngressNamespaceLabelKey
  {
    assert IngressLabelKey[0] == 'n' && OpenShiftIngressLabelKey[0] == 's' && OpenShiftIngressNamespaceLabelKey[0] == 's';
    assert |OpenShiftIngressLabelKey| != |OpenShiftIngressNamespaceLabelKey|;
  }

  /**
   * Every route: the input host, a Service target with weight 100 taken from
   * the load balancer, no wildcard, the ingress's annotations plus the
   * timeout, the ingress's labels overlaid with its name and namespace, and
   * the name routeName gives (route.go:84-93, 150-166).
   */
  lemma RouteShape(v: IngressValue, host: string, rule: IngressRule, env: RouteEnv, r: Route)
    requires RouteFor(v, host, rule, env) == Ok(Some(r))
    ensures LoadBalancerTarget(v.publicLoadBalancer).Some?
    ensures var target := LoadBalancerTarget(v.publicLoadBalancer).value;
      r.namespace == target.1 && r.spec.to == RouteTargetReference("Service", target.0, 100)
    ensures r.spec.host == host && r.spec.wildcardPolicy == WildcardPolicyNone
    ensures r.name == RouteName(env.sum256, v.uid, host)
    ensures TimeoutAnnotation in r.annotations && r.annotations[TimeoutAnnotation] == DefaultTimeout(env)
    ensures forall k :: k != TimeoutAnnotation ==>
              (k in r.annotations <==> k in AnnotationsOf(v)) && (k in AnnotationsOf(v) ==> r.annotations[k] == AnnotationsOf(v)[k])
    ensures r.labels[IngressLabelKey] == v.name && r.labels[OpenShiftIngressLabelKey] == v.name
    ensures r.labels[OpenShiftIngressNamespaceLabelKey] == v.namespace
    ensures forall k :: k != IngressLabelKey && k != OpenShiftIngressLabelKey && k != OpenShiftIngressNamespaceLabelKey ==>
              (k in r.labels <==> k in v.labels) && (k in v.labels ==> r.labels[k] == v.labels[k])
  {
    LabelKeysDistinct();
  }

  /** The timeout annotation reads back as DefaultMaxRevisionTimeoutSeconds followed by "s" (route.go:86). */
  lemma DefaultTimeoutReadsBack(env: RouteEnv)
    ensures var t := DefaultTimeout(env); |t| >= 2 && t[|t| - 1] == 's' && ParseNat(t[..|t| - 1]) == Some(env.maxRevisionTimeoutSeconds)
  {
    var d := Decimal(env.maxRevisionTimeoutSeconds);
    assert DefaultTimeout(env)[..|DefaultTimeout(env)| - 1] == d;
    DecimalRoundTrip(env.maxRevisionTimeoutSeconds);
  }

  // ---------------------------------------------------------------------------
  // Route names

  /** hashHost is the hex of the first three bytes of the digest (route.go:175-177). */
  lemma HashHostPrefix(sum256: string -> Digest, host: string)
    ensures HashHost(sum256, host) == HexEncode(sum256(host)[..3])
  {
    var d := sum256(host);
    assert d == d[..3] + d[3..];
    HexEncodeAppend(d[..3], d[3..]);
  }

  /**
   * routeName is "route-", the UID, "-" and twelve hex digits that decode
   * to the bytes of hashHost's six-character string (route.go:171-173).
   */
  lemma RouteNameParts(sum256: string -> Digest, uid: string, host: string)
    ensures var name := RouteName(sum256, uid, host);
      |name| == |uid| + 19 && name[..|uid| + 7] == "route-" + uid + "-"
      && HexDecode(name[|uid| + 7..]) == Some(AsciiBytes(HashHost(sum256, host)))
  {
    var b := AsciiBytes(HashHost(sum256, host));
    var name := RouteName(sum256, uid, host);
    assert name[|uid| + 7..] == HexEncode(b);
    HexRoundTrip(b);
  }

  lemma AsciiBytesInjective(s: string, t: string)
    requires IsAscii(s) && IsAscii(t) && AsciiBytes(s) == AsciiBytes(t)
    ensures s == t
  {
    assert |s| == |t|;
    forall i | 0 <= i < |s| ensures s[i] == t[i] {
      assert AsciiBytes(s)[i] == AsciiBytes(t)[i];
    }
  }

  /**
   * Two routes of the translation get the same name exactly when they come
   * from the same UID and hosts of the same hashHost: the name is
   * deterministic and tells UIDs apart (route.go:171-177).
   */
  lemma RouteNameInjective(sum256: string -> Digest, u1: string, h1: string, u2: string, h2: string)
    ensures RouteName(sum256, u1, h1) == RouteName(sum256, u2, h2) <==> u1 == u2 && HashHost(sum256, h1) == HashHost(sum256, h2)
  {
    var n1, n2 := RouteName(sum256, u1, h1), RouteName(sum256, u2, h2);
    if n1 == n2 {
      RouteNameParts(sum256, u1, h1);
      RouteNameParts(sum256, u2, h2);
      assert |u1| == |u2|;
      assert u1 == ("route-" + u1 + "-")[6..|u1| + 6];
      assert u2 == ("route-" + u2 + "-")[6..|u2| + 6];
      AsciiBytesInjective(HashHost(sum256, h1), HashHost(sum256, h2));
    }
  }

  // ---------------------------------------------------------------------------
  // The host filter

  /** A host of one label never reaches makeRoute (route.go:50-51). */
  lemma SingleLabelHostDropped(host: string)
    requires '.' !in host
    ensures !IsExternalHost(host)
  {
    SplitWithoutSeparator(host, '.');
  }

  /**
   * A host made of dot-free labels is considered exactly when it has two
   * labels, or more with a third label other than "svc" (route.go:50-51).
   */
  lemma ExternalHostLabels(labels: seq<string>)
    requires |labels| >= 1 && forall i :: 0 <= i < |labels| ==> '.' !in labels[i]
    ensures IsExternalHost(Join(labels, '.')) <==> |labels| == 2 || (|labels| > 2 && labels[2] != "svc")
  {
    SplitJoin(labels, '.');
  }

  // ---------------------------------------------------------------------------
  // A worked example

  /**
   * An ingress with one external rule for "foo.default.example.com",
   * UID "abc", HTTP option Redirected, no annotations and no TLS, behind the
   * Kourier gateway service.
   */
  /** The internal domain "kourier.knative-serving-ingress.svc.cluster.local", written label by label. */
  const ExampleDomain := "kourier" + "." + "knative-serving-ingress" + "." + "svc" + "." + "cluster" + "." + "local"

  function ExampleIngress(): IngressValue
  {
    IngressValue("foo", "default", "abc", map[], None,
      IngressSpec([IngressRule(["foo.default.example.com"], ExternalIP)], [], HTTPOptionRedirected),
      Some(LoadBalancerStatus([LoadBalancerIngressStatus(ExampleDomain)])))
  }

  /**
   * It gives exactly one route: named "route-abc-" and twelve hex digits, in
   * namespace "knative-serving-ingress", to service "kourier" on port
   * "http2", Edge-terminated with the Redirect policy.
   */
  lemma ExampleHostIsExternal()
    ensures IsExternalHost("foo.default.example.com")
  {
    assert Join(["foo", "default", "example", "com"], '.') == "foo.default.example.com";
    ExternalHostLabels(["foo", "default", "example", "com"]);
  }

  lemma ExampleDomainJoin()
    ensures Join(["kourier", "knative-serving-ingress", "svc"] + ["cluster", "local"], '.') == ExampleDomain
  {
    var labels := ["kourier", "knative-serving-ingress", "svc", "cluster", "local"];
    assert labels == ["kourier", "knative-serving-ingress", "svc"] + ["cluster", "local"];
    assert labels[4..] == ["local"];
    assert labels[3..] == ["cluster"] + labels[4..];
    assert labels[2..] == ["svc"] + labels[3..];
    assert labels[1..] == ["knative-serving-ingress"] + labels[2..];
  }

  lemma ExampleTarget()
    ensures LoadBalancerTarget(ExampleIngress().publicLoadBalancer) == Some(("kourier", "knative-serving-ingress"))
  {
    var e := LoadBalancerIngressStatus(ExampleDomain);
    ExampleDomainJoin();
    ServiceOfDomain("kourier", "knative-serving-ingress", ["cluster", "local"]);
    assert ServiceOf(e) == Some(("kourier", "knative-serving-ingress"));
    assert LastService([e]) == Some(("kourier", "knative-serving-ingress"));
  }

  /** The route makeRoute builds for the example host. */
  lemma ExampleRouteFor(env: RouteEnv)
    ensures RouteFor(ExampleIngress(), "foo.default.example.com", ExampleIngress().spec.rules[0], env)
         == Ok(Some(Route(RouteName(env.sum256, "abc", "foo.default.example.com"), "knative-serving-ingress",
                          RouteLabels(ExampleIngress()), RouteAnnotations(ExampleIngress(), env),
                          RouteSpec("foo.default.example.com", HTTPPort, RouteTargetReference("Service", "kourier", 100),
                                    TLSConfig(Edge, Redirect), WildcardPolicyNone))))
  {
    ExampleTarget();
    assert Lookup(AnnotationsOf(ExampleIngress()), HTTPOptionAnnotationKey) == "";
  }

  lemma ExampleRoutes(env: RouteEnv)
    ensures Routes(ExampleIngress(), env).Ok? && |Routes(ExampleIngress(), env).value| == 1
    ensures var r := Routes(ExampleIngress(), env).value[0];
      r.name == RouteName(env.sum256, "abc", "foo.default.example.com") && |r.name| == 22
      && r.namespace == "knative-serving-ingress" && r.spec.to == RouteTargetReference("Service", "kourier", 100)
      && r.spec.host == "foo.default.example.com" && r.spec.targetPort == HTTPPort
      && r.spec.tls == TLSConfig(Edge, Redirect)
  {
    var v := ExampleIngress();
    var host := "foo.default.example.com";
    var rule := v.spec.rules[0];
    ExampleHostIsExternal();
    assert Candidates(v.spec.rules) == [Candidate(rule, host)] by {
      assert v.spec.rules[..0] == [];
      assert rule.hosts[..0] == [];
    }
    ExampleRouteFor(env);
    RouteNameParts(env.sum256, "abc", host);
    CollectStep(MakerOf(v, env), [], Candidate(rule, host));
  }
}
