/** `pkg/protoplugin/gateway/template.go`: the Istio `VirtualService` that routes every
    gRPC method path to the service of its method, rendered line by line. The `range` over
    the routing rules writes a block for each rule that starts with a blank line, and the
    template ends with one more. */
module GatewayTemplate {
  import opened Text

  /** One `routingRule`: the gRPC path `/package.Service/Method` and the Knative service
      that serves it. */
  datatype RoutingRule = RoutingRule(path: string, serviceName: string)

  /** The `options` the template is executed with. */
  datatype Options = Options(name: string, namespace: string, domain: string, routingRules: seq<RoutingRule>)

  /** The 12 lines up to `http:`. */
  function Header(opt: Options): seq<string> {
    [ "apiVersion: networking.istio.io/v1alpha3",
      "kind: VirtualService",
      "metadata:",
      "  name: " + opt.name,
      "  namespace: " + opt.namespace,
      "spec:",
      "  gateways:",
      "  - knative-ingress-gateway.knative-serving.svc.cluster.local",
      "  - mesh",
      "  hosts:",
      "  - " + opt.domain,
      "  http:" ]
  }

  /** The 12 lines of one rule: match the exact path, rewrite the authority to the method's
      service in the namespace, and route to the ingress gateway. */
  function RuleLines(r: RoutingRule, namespace: string): seq<string> {
    [ "",
      "  - match:",
      "    - uri:",
      "        exact: " + r.path,
      "    rewrite:",
      "      authority: " + r.serviceName + "." + namespace + ".svc.cluster.local",
      "    route:",
      "      - destination:",
      "          host: istio-ingressgateway.istio-system.svc.cluster.local",
      "          port:",
      "            number: 80",
      "        weight: 100" ]
  }

  /** The blocks of the rules, in order. */
  function Rules(rs: seq<RoutingRule>, namespace: string): seq<string> {
    if rs == [] then [] else Rules(rs[..|rs| - 1], namespace) + RuleLines(rs[|rs| - 1], namespace)
  }

  function Lines(opt: Options): seq<string> {
    Header(opt) + Rules(opt.routingRules, opt.namespace) + [""]
  }

  /** The manifest: every line ends in a newline. */
  function Render(opt: Options): string {
    Unlines(Lines(opt))
  }

  // ---------------------------------------------------------------------------
  // Properties

  /** The manifest's name and namespace, and the domain it routes. */
  lemma HeaderLines(opt: Options)
    ensures var h := Header(opt);
      && |h| == 12
      && h[3] == "  name: " + opt.name
      && h[4] == "  namespace: " + opt.namespace
      && h[10] == "  - " + opt.domain
  {
  }

  /** A rule's block opens with a blank line, matches exactly its path and sends it to its
      service in the manifest's namespace. */
  lemma RuleBlock(r: RoutingRule, namespace: string)
    ensures var b := RuleLines(r, namespace);
      && |b| == 12
      && b[0] == ""
      && b[3] == "        exact: " + r.path
      && b[5] == "      authority: " + r.serviceName + "." + namespace + ".svc.cluster.local"
  {
  }

  /** Whatever the rule, it is routed to the ingress gateway on port 80 with weight 100. */
  lemma RuleDestination(r: RoutingRule, namespace: string)
    ensures var b := RuleLines(r, namespace);
      && |b| == 12
      && b[7] == "      - destination:"
      && b[8] == "          host: istio-ingressgateway.istio-system.svc.cluster.local"
      && b[10] == "            number: 80"
      && b[11] == "        weight: 100"
  {
  }

  lemma RuleLength(r: RoutingRule, namespace: string)
    ensures |RuleLines(r, namespace)| == 12
  {
  }

  /** Rule `n` owns lines `12n` to `12n + 11` of the blocks. */
  lemma {:induction false} RulesIndex(rs: seq<RoutingRule>, namespace: string)
    ensures |Rules(rs, namespace)| == 12 * |rs|
    ensures forall n :: 0 <= n < |rs| ==> Rules(rs, namespace)[12 * n..12 * n + 12] == RuleLines(rs[n], namespace)
    decreases |rs|
  {
    if rs != [] {
      var init, last := rs[..|rs| - 1], rs[|rs| - 1];
      RulesIndex(init, namespace);
      RuleLength(last, namespace);
      var a, b := Rules(init, namespace), RuleLines(last, namespace);
      forall n | 0 <= n < |rs|
        ensures Rules(rs, namespace)[12 * n..12 * n + 12] == RuleLines(rs[n], namespace)
      {
        if n < |init| {
          assert (a + b)[12 * n..12 * n + 12] == a[12 * n..12 * n + 12];
          assert rs[n] == init[n];
        } else {
          assert (a + b)[12 * n..12 * n + 12] == b;
        }
      }
    }
  }

  /** The header, then the blocks of the rules, then a blank line. */
  lemma LinesLayout(opt: Options)
    ensures var l := Lines(opt); var k := |opt.routingRules|;
      && |l| == 13 + 12 * k
      && l[..12] == Header(opt)
      && l[12..12 + 12 * k] == Rules(opt.routingRules, opt.namespace)
      && l[12 + 12 * k] == ""
  {
    var h, rs := Header(opt), Rules(opt.routingRules, opt.namespace);
    HeaderLength(opt);
    RulesIndex(opt.routingRules, opt.namespace);
    Middle(h, rs, [""], 0, |rs|);
  }

  /** Rule `n` owns lines `12 + 12n` to `23 + 12n` of the manifest. */
  lemma RuleAt(opt: Options, n: nat)
    requires n < |opt.routingRules|
    ensures var l := Lines(opt);
      && 24 + 12 * n <= |l|
      && l[12 + 12 * n..24 + 12 * n] == RuleLines(opt.routingRules[n], opt.namespace)
  {
    var h, rs := Header(opt), Rules(opt.routingRules, opt.namespace);
    HeaderLength(opt);
    RulesIndex(opt.routingRules, opt.namespace);
    Middle(h, rs, [""], 12 * n, 12 * n + 12);
  }

  lemma HeaderLength(opt: Options)
    ensures |Header(opt)| == 12
  {
  }

  /** A slice of the middle one of three sequences put one after the other. */
  lemma Middle<T>(a: seq<T>, b: seq<T>, c: seq<T>, i: nat, j: nat)
    requires i <= j <= |b|
    ensures (a + b + c)[|a| + i..|a| + j] == b[i..j]
    ensures (a + b + c)[..|a|] == a
  {
    assert a + b + c == a + (b + c);
  }
}
