/** Services and ingresses of the Kubernetes transform: one Service per
    service intent, and for load-balanced intents an Ingress chosen by the
    number of ingress rules and ports. */
module Services {
  import opened Wrappers
  import opened Api
  import opened AppSpec

  /** The map a Go labels value reads as: a nil map has no entries. */
  function LabelMap(labels: Labels): map<string, string> {
    labels.GetOr(map[])
  }

  /** The Service built for intent `s`. */
  function ServiceFor(s: ServiceIntent, labels: Labels): (svc: Object)
    ensures svc.Service? && svc.typeMeta == Unstamped && svc.meta == ObjectMeta(s.name, labels)
    ensures svc.serviceSpec.serviceType == s.spec.serviceType && svc.serviceSpec.ports == s.spec.ports
    ensures |s.spec.selector| == 0 ==> svc.serviceSpec.selector == LabelMap(labels)
    ensures |s.spec.selector| != 0 ==> svc.serviceSpec.selector == s.spec.selector
  {
    var spec := if |s.spec.selector| == 0 then s.spec.(selector := LabelMap(labels)) else s.spec;
    Service(Unstamped, ObjectMeta(s.name, labels), spec)
  }

  /** The generated HTTP rule: path "/" to the service's only port. */
  function RootPath(serviceName: string, port: int): HTTPIngressRuleValue {
    HTTPIngressRuleValue([HTTPIngressPath("/", IngressBackend(serviceName, IntValue(port)))])
  }

  /** When an intent gets an Ingress: it is load balanced and has either
      several rules, or one rule and exactly one port. */
  predicate IngressExpected(s: ServiceIntent) {
    && s.spec.serviceType == LoadBalancer
    && (|s.rules| > 1 || (|s.rules| == 1 && |s.spec.ports| == 1))
  }

  /** The Ingress, if any, that follows the Service of intent `s`. */
  function IngressesFor(s: ServiceIntent, labels: Labels): (ings: seq<Object>)
    ensures |ings| <= 1
    ensures |ings| == 1 <==> IngressExpected(s)
    ensures forall ing <- ings :: ing.Ingress? && ing.typeMeta == Unstamped && ing.meta == ObjectMeta(s.name, labels)
    ensures IngressExpected(s) && |s.rules| == 1 ==>
              var http := if s.rules[0].http.None? then Some(RootPath(s.name, s.spec.ports[0].port)) else s.rules[0].http;
              ings[0].ingressSpec == IngressSpec(None, [IngressRule(s.rules[0].host, http)])
    ensures IngressExpected(s) && |s.rules| > 1 ==> ings[0].ingressSpec == s.ingressSpec
  {
    if s.spec.serviceType != LoadBalancer then []
    else if |s.rules| == 1 && |s.spec.ports| == 1 then
      var http := if s.rules[0].http.None? then Some(RootPath(s.name, s.spec.ports[0].port)) else s.rules[0].http;
      [Ingress(Unstamped, ObjectMeta(s.name, labels), IngressSpec(None, [IngressRule(s.rules[0].host, http)]))]
    else if |s.rules| == 1 && |s.spec.ports| > 1 then
      []
    else if |s.rules| > 1 then
      [Ingress(Unstamped, ObjectMeta(s.name, labels), s.ingressSpec)]
    else
      []
  }

  /** Everything built for a list of intents: for each intent in order, its
      Service followed by its Ingress if any. */
  function ServicesFor(ss: seq<ServiceIntent>, labels: Labels): (objs: seq<Object>)
    ensures forall o <- objs :: (o.Service? || o.Ingress?) && o.typeMeta == Unstamped && o.meta.labels == labels
    ensures |ss| <= |objs| <= 2 * |ss|
    decreases |ss|
  {
    if ss == [] then []
    else
      var s := ss[|ss| - 1];
      ServicesFor(ss[..|ss| - 1], labels) + [ServiceFor(s, labels)] + IngressesFor(s, labels)
  }

  /** The Services among `objs`, in order. */
  function ServicesIn(objs: seq<Object>): seq<Object>
    decreases |objs|
  {
    if objs == [] then []
    else ServicesIn(objs[..|objs| - 1]) + (if objs[|objs| - 1].Service? then [objs[|objs| - 1]] else [])
  }

  /** The Ingresses among `objs`, in order. */
  function IngressesIn(objs: seq<Object>): seq<Object>
    decreases |objs|
  {
    if objs == [] then []
    else IngressesIn(objs[..|objs| - 1]) + (if objs[|objs| - 1].Ingress? then [objs[|objs| - 1]] else [])
  }

  lemma {:induction false} ServicesInAppend(a: seq<Object>, b: seq<Object>)
    ensures ServicesIn(a + b) == ServicesIn(a) + ServicesIn(b)
    decreases |b|
  {
    if b != [] {
      var front := b[..|b| - 1];
      assert (a + b)[..|a + b| - 1] == a + front;
      ServicesInAppend(a, front);
    } else {
      assert a + b == a;
    }
  }

  lemma {:induction false} IngressesInAppend(a: seq<Object>, b: seq<Object>)
    ensures IngressesIn(a + b) == IngressesIn(a) + IngressesIn(b)
    decreases |b|
  {
    if b != [] {
      var front := b[..|b| - 1];
      assert (a + b)[..|a + b| - 1] == a + front;
      IngressesInAppend(a, front);
    } else {
      assert a + b == a;
    }
  }

  /** What one intent contributes: its Service first, then its Ingress if any. */
  lemma IntentObjects(s: ServiceIntent, labels: Labels)
    ensures ServicesIn([ServiceFor(s, labels)] + IngressesFor(s, labels)) == [ServiceFor(s, labels)]
    ensures IngressesIn([ServiceFor(s, labels)] + IngressesFor(s, labels)) == IngressesFor(s, labels)
  {
    var svc, ings := ServiceFor(s, labels), IngressesFor(s, labels);
    ServicesInAppend([svc], ings);
    IngressesInAppend([svc], ings);
    assert [svc][..0] == [];
    if ings != [] {
      assert ings[..0] == [];
    }
  }

  lemma ServicesForSnoc(ss: seq<ServiceIntent>, labels: Labels)
    requires ss != []
    ensures var s := ss[|ss| - 1];
            ServicesFor(ss, labels) == ServicesFor(ss[..|ss| - 1], labels) + ([ServiceFor(s, labels)] + IngressesFor(s, labels))
  {
  }

  /** The Services of one more intent are those of the others and its own. */
  lemma ServicesInSnoc(ss: seq<ServiceIntent>, labels: Labels)
    requires ss != []
    ensures ServicesIn(ServicesFor(ss, labels)) == ServicesIn(ServicesFor(ss[..|ss| - 1], labels)) + [ServiceFor(ss[|ss| - 1], labels)]
  {
    var front, s := ss[..|ss| - 1], ss[|ss| - 1];
    ServicesForSnoc(ss, labels);
    IntentObjects(s, labels);
    ServicesInAppend(ServicesFor(front, labels), [ServiceFor(s, labels)] + IngressesFor(s, labels));
  }

  /** `svcs` holds the Service of each intent of `ss`, in order. */
  ghost predicate ServiceOfEach(svcs: seq<Object>, ss: seq<ServiceIntent>, labels: Labels) {
    |svcs| == |ss| && forall i :: 0 <= i < |ss| ==> svcs[i] == ServiceFor(ss[i], labels)
  }

  lemma ServiceOfEachSnoc(svcs: seq<Object>, ss: seq<ServiceIntent>, labels: Labels)
    requires ss != [] && ServiceOfEach(svcs, ss[..|ss| - 1], labels)
    ensures ServiceOfEach(svcs + [ServiceFor(ss[|ss| - 1], labels)], ss, labels)
  {
  }

  lemma {:induction false} ServicesInOrder(ss: seq<ServiceIntent>, labels: Labels)
    ensures ServiceOfEach(ServicesIn(ServicesFor(ss, labels)), ss, labels)
    decreases |ss|
  {
    if ss != [] {
      var front := ss[..|ss| - 1];
      ServicesInOrder(front, labels);
      ServicesInSnoc(ss, labels);
      ServiceOfEachSnoc(ServicesIn(ServicesFor(front, labels)), ss, labels);
    }
  }

  /** Exactly one Service per intent, in intent order, each named after its
      intent. */
  lemma OneServicePerIntent(ss: seq<ServiceIntent>, labels: Labels)
    ensures |ServicesIn(ServicesFor(ss, labels))| == |ss|
    ensures forall i :: 0 <= i < |ss| ==> ServicesIn(ServicesFor(ss, labels))[i] == ServiceFor(ss[i], labels)
  {
    ServicesInOrder(ss, labels);
  }

  /** The number of intents that get an Ingress. */
  function ExpectedIngresses(ss: seq<ServiceIntent>): nat
    decreases |ss|
  {
    if ss == [] then 0
    else ExpectedIngresses(ss[..|ss| - 1]) + (if IngressExpected(ss[|ss| - 1]) then 1 else 0)
  }

  /** One Ingress for each intent the three-way rule admits, and no other. */
  lemma {:induction false} IngressCount(ss: seq<ServiceIntent>, labels: Labels)
    ensures |IngressesIn(ServicesFor(ss, labels))| == ExpectedIngresses(ss)
    decreases |ss|
  {
    if ss != [] {
      var front, s := ss[..|ss| - 1], ss[|ss| - 1];
      IngressCount(front, labels);
      ServicesForSnoc(ss, labels);
      IntentObjects(s, labels);
      IngressesInAppend(ServicesFor(front, labels), [ServiceFor(s, labels)] + IngressesFor(s, labels));
    }
  }

  // ---------------------------------------------------------------------------
  // Scenarios

  /** A load-balanced intent with one rule, one port and no HTTP routing gets
      one Ingress routing "/" to that port. */
  lemma OneRuleOnePortScenario(name: string, host: string, port: int, labels: Labels)
    ensures var s := ServiceIntent(name, ServiceSpec(LoadBalancer, [ServicePort("", port)], map[]),
                                   [IngressRule(host, None)], IngressSpec(None, []));
            var objs := ServicesFor([s], labels);
            && |objs| == 2
            && objs[1] == Ingress(Unstamped, ObjectMeta(name, labels),
                                  IngressSpec(None, [IngressRule(host, Some(RootPath(name, port)))]))
  {
    var s := ServiceIntent(name, ServiceSpec(LoadBalancer, [ServicePort("", port)], map[]),
                           [IngressRule(host, None)], IngressSpec(None, []));
    assert [s][..0] == [];
  }

  /** A load-balanced intent with one rule and two ports gets its Service and
      no Ingress, whether or not HTTP routing is given. */
  lemma OneRuleTwoPortsScenario(s: ServiceIntent, labels: Labels)
    requires s.spec.serviceType == LoadBalancer && |s.rules| == 1 && |s.spec.ports| == 2
    ensures ServicesFor([s], labels) == [ServiceFor(s, labels)]
  {
    assert [s][..0] == [];
  }
}
