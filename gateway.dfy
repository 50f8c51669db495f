/** `pkg/protoplugin/gateway`: the one `gateway.yaml` of a project, an Istio
    `VirtualService` with a routing rule for every method of every file to generate, in scan
    order. It has no method mode: the same file is written whatever the parameter names. */
module Gateway {
  import opened Wrappers
  import Parameter
  import opened Descriptor
  import opened Backend
  import GatewayTemplate

  /** The routing rule of one method: its gRPC path `/package.Service/Method` and its
      service name. */
  function Rule(env: Env, t: Target): GatewayTemplate.RoutingRule {
    GatewayTemplate.RoutingRule("/" + t.file.package + "." + t.service.name + "/" + t.rpc.name,
      env.serviceName(t.service, t.rpc))
  }

  /** `Rule` as the function of a target that `Chunks` takes. */
  function RuleOf(env: Env): Target -> seq<GatewayTemplate.RoutingRule> {
    t => [Rule(env, t)]
  }

  /** The `options` after the scan: `grpc-gateway` in the parameter's namespace and domain,
      with the rules of every method to generate. */
  function GatewayOptions(env: Env, stuff: Parameter.Stuff, req: Request): GatewayTemplate.Options {
    GatewayTemplate.Options("grpc-gateway", stuff.namespace, stuff.domain, Chunks(RuleOf(env), Targets(req)))
  }

  /** The result of `Do`: the single file `gateway.yaml`. */
  function Output(env: Env, stuff: Parameter.Stuff, req: Request): (r: Result<Response, string>)
    ensures r.Ok? && r.value.error.None? && |r.value.files| == 1 && r.value.files[0].name == "gateway.yaml"
  {
    Ok(Response(None, [File("gateway.yaml", Text(GatewayTemplate.Render(GatewayOptions(env, stuff, req))))]))
  }

  // ---------------------------------------------------------------------------
  // The plugin

  /** `Do`: the scan appends one rule per method to generate. The loop over the services of
      a file and the loop over the methods of a service are the methods `DoFile` and
      `DoService`. */
  method Do(env: Env, stuff: Parameter.Stuff, req: Request) returns (r: Result<Response, string>)
    ensures r == Output(env, stuff, req)
  {
    var codegen := GenerateSet(req);
    var opt := GatewayTemplate.Options("grpc-gateway", stuff.namespace, stuff.domain, []);
    var i := 0;
    while i < |req.protoFiles|
      invariant i <= |req.protoFiles|
      invariant opt.name == "grpc-gateway" && opt.namespace == stuff.namespace && opt.domain == stuff.domain
      invariant Emitted([], RuleOf(env), FileTargets(req.protoFiles[..i], GenSet(req)), opt.routingRules)
    {
      VisitFile(req, i);
      if req.protoFiles[i].name in codegen {
        var rules := DoFile(env, req, i, opt.routingRules);
        opt := opt.(routingRules := rules);
      }
      i := i + 1;
    }
    VisitAll(req);
    assert opt.routingRules == Chunks(RuleOf(env), Targets(req));
    assert opt == GatewayOptions(env, stuff, req);
    var mainContent := GatewayTemplate.Render(opt);
    return Ok(Response(None, [File("gateway.yaml", Text(mainContent))]));
  }

  method DoFile(env: Env, req: Request, i: nat, rules0: seq<GatewayTemplate.RoutingRule>)
    returns (rules: seq<GatewayTemplate.RoutingRule>)
    requires i < |req.protoFiles| && req.protoFiles[i].name in GenSet(req)
    requires Emitted([], RuleOf(env), FileTargets(req.protoFiles[..i], GenSet(req)), rules0)
    ensures Emitted([], RuleOf(env), FileTargets(req.protoFiles[..i + 1], GenSet(req)), rules)
  {
    VisitFile(req, i);
    rules := rules0;
    var j := 0;
    while j < |req.protoFiles[i].services|
      invariant j <= |req.protoFiles[i].services|
      invariant Emitted([], RuleOf(env), VisitedServices(req, i, j), rules)
    {
      rules := DoService(env, req, i, j, rules);
      j := j + 1;
    }
  }

  method DoService(env: Env, req: Request, i: nat, j: nat, rules0: seq<GatewayTemplate.RoutingRule>)
    returns (rules: seq<GatewayTemplate.RoutingRule>)
    requires i < |req.protoFiles| && j < |req.protoFiles[i].services|
    requires Emitted([], RuleOf(env), VisitedServices(req, i, j), rules0)
    ensures Emitted([], RuleOf(env), VisitedServices(req, i, j + 1), rules)
  {
    var fd := req.protoFiles[i];
    var sd := fd.services[j];
    VisitService(req, i, j);
    rules := rules0;
    var k := 0;
    while k < |sd.methods|
      invariant k <= |sd.methods|
      invariant Emitted([], RuleOf(env), Visited(req, i, j, k), rules)
    {
      var md := sd.methods[k];
      var rule := GatewayTemplate.RoutingRule("/" + fd.package + "." + sd.name + "/" + md.name, env.serviceName(sd, md));
      ChunksVisit([], RuleOf(env), req, i, j, k, rules, [rule]);
      rules := rules + [rule];
      k := k + 1;
    }
  }

  // ---------------------------------------------------------------------------
  // Properties

  /** Rule `n` is that of method `n` of the scan: one rule per method, in order. */
  lemma RulesInOrder(env: Env, stuff: Parameter.Stuff, req: Request)
    ensures var rs := GatewayOptions(env, stuff, req).routingRules;
      && |rs| == |Targets(req)|
      && forall n :: 0 <= n < |rs| ==> rs[n] == Rule(env, Targets(req)[n])
  {
    RuleSingle(env);
    ChunksSingle(RuleOf(env), Targets(req));
  }

  lemma RuleSingle(env: Env)
    ensures forall t :: |RuleOf(env)(t)| == 1
  {
  }

  /** Every method of every service of every file to generate has its rule, and every
      rule is that of such a method. */
  lemma RuleOfEveryMethod(env: Env, stuff: Parameter.Stuff, req: Request, fd: FileDesc, sd: ServiceDesc, md: MethodDesc)
    requires fd in req.protoFiles && fd.name in req.fileToGenerate && sd in fd.services && md in sd.methods
    ensures GatewayTemplate.RoutingRule("/" + fd.package + "." + sd.name + "/" + md.name, env.serviceName(sd, md))
      in GatewayOptions(env, stuff, req).routingRules
  {
    var t := Target(fd, sd, md);
    TargetsMember(req, t);
    var n :| 0 <= n < |Targets(req)| && Targets(req)[n] == t;
    RulesInOrder(env, stuff, req);
    assert GatewayOptions(env, stuff, req).routingRules[n] == Rule(env, t);
  }

  /** Every rule routes the path of a method of a file to generate. */
  lemma EveryRuleOfAMethod(env: Env, stuff: Parameter.Stuff, req: Request, r: GatewayTemplate.RoutingRule)
    requires r in GatewayOptions(env, stuff, req).routingRules
    ensures exists t :: (t in Targets(req) && t.file in req.protoFiles && t.file.name in req.fileToGenerate
      && t.service in t.file.services && t.rpc in t.service.methods && r == Rule(env, t))
  {
    RulesInOrder(env, stuff, req);
    var n :| 0 <= n < |GatewayOptions(env, stuff, req).routingRules| && GatewayOptions(env, stuff, req).routingRules[n] == r;
    TargetsMember(req, Targets(req)[n]);
  }

  /** A file outside `FileToGenerate` adds no rule. */
  lemma SkipFile(env: Env, stuff: Parameter.Stuff, req: Request, a: seq<FileDesc>, fd: FileDesc, b: seq<FileDesc>)
    requires fd.name !in req.fileToGenerate
    ensures GatewayOptions(env, stuff, req.(protoFiles := a + [fd] + b)) == GatewayOptions(env, stuff, req.(protoFiles := a + b))
  {
    SkipUngenerated(a, fd, b, GenSet(req));
  }

  /** The manifest is `grpc-gateway` in the parameter's namespace, for its domain. */
  lemma ManifestHeader(env: Env, stuff: Parameter.Stuff, req: Request)
    ensures var l := GatewayTemplate.Lines(GatewayOptions(env, stuff, req));
      && |l| == 13 + 12 * |Targets(req)|
      && l[3] == "  name: " + "grpc-gateway"
      && l[4] == "  namespace: " + stuff.namespace
      && l[10] == "  - " + stuff.domain
  {
    var opt := GatewayOptions(env, stuff, req);
    RulesInOrder(env, stuff, req);
    GatewayTemplate.LinesLayout(opt);
    GatewayTemplate.HeaderLines(opt);
  }

  /** The block of method `n` of the scan matches its gRPC path exactly and rewrites the
      authority to its service in the parameter's namespace. */
  lemma ManifestRoute(env: Env, stuff: Parameter.Stuff, req: Request, n: nat)
    requires n < |Targets(req)|
    ensures var l := GatewayTemplate.Lines(GatewayOptions(env, stuff, req)); var t := Targets(req)[n];
      && 24 + 12 * n <= |l|
      && l[15 + 12 * n] == "        exact: " + "/" + t.file.package + "." + t.service.name + "/" + t.rpc.name
      && l[17 + 12 * n] == "      authority: " + env.serviceName(t.service, t.rpc) + "." + stuff.namespace + ".svc.cluster.local"
  {
    var opt := GatewayOptions(env, stuff, req);
    RulesInOrder(env, stuff, req);
    GatewayTemplate.RuleAt(opt, n);
    GatewayTemplate.RuleBlock(opt.routingRules[n], opt.namespace);
    var l := GatewayTemplate.Lines(opt);
    assert l[15 + 12 * n] == l[12 + 12 * n..24 + 12 * n][3];
    assert l[17 + 12 * n] == l[12 + 12 * n..24 + 12 * n][5];
  }
}
