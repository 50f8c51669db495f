/** `pkg/protoplugin/config`: the Knative `Service` manifest of each method. With no method
    named it writes a meta file whose `//go:generate` lines re-run it once per method, all
    into `.`; with a method named it fills the manifest template with the method's service
    name, the image of its entrypoint and the method's `korpc.Options`. */
module Config {
  import opened Wrappers
  import opened Text
  import Paths
  import Parameter
  import Install
  import opened Descriptor
  import opened Backend
  import ConfigTemplate

  // ---------------------------------------------------------------------------
  // Meta mode

  /** The parameter of one method's invocation: the method's names and the nested
      directory, `base`, `genDir` and `methodsDir` copied; `domain` and `namespace` are not
      copied, so they are empty. */
  function MetaParam(stuff: Parameter.Stuff, t: Target): Parameter.Stuff {
    Parameter.Stuff("config", stuff.base, stuff.genDir, stuff.methodsDir, t.service.name, t.rpc.name,
      stuff.nestedDirectory, "", "")
  }

  /** The one line for a method: protoc with korpc's config mode writing into `.`. */
  function MetaLine(env: Env, stuff: Parameter.Stuff, files: seq<string>, t: Target): string {
    GenerateLine(env.tc.protocBinary, Install.ProtoCArgs(env.tc, ".", env.tc.korpcPath, MetaParam(stuff, t), files))
  }

  /** `MetaLine` as the function of a target that `Chunks` takes. */
  function MetaLinesOf(env: Env, stuff: Parameter.Stuff, files: seq<string>): Target -> seq<string> {
    t => [MetaLine(env, stuff, files, t)]
  }

  /** The response of `doMeta`: `package config`, then one line per method to generate, in
      scan order. */
  function MetaOutput(env: Env, stuff: Parameter.Stuff, req: Request): Response {
    MetaResponse(["package config"] + Chunks(MetaLinesOf(env, stuff, ProtoPaths(stuff, req.fileToGenerate)), Targets(req)))
  }

  // ---------------------------------------------------------------------------
  // Method mode

  /** The method's extension, or the zero options when `proto.GetExtension` fails. */
  function Extension(md: MethodDesc): KorpcOptions {
    match md.korpc
    case None => ZeroOptions
    case Some(o) => o
  }

  /** The `options` of the manifest: the service name, the `default` namespace, the import
      path of the method's entrypoint as the image, and the extension. `MethodLower` is
      never assigned. */
  function OptionsFor(env: Env, stuff: Parameter.Stuff, t: Target): ConfigTemplate.Options {
    ConfigTemplate.Options(env.serviceName(t.service, t.rpc), "default",
      Paths.Join([stuff.base, stuff.genDir, "entrypoint", Lower(t.service.name), Lower(t.rpc.name)]),
      "", Extension(t.rpc))
  }

  /** `<service name>.yaml` with the rendered manifest. */
  function ServiceFile(env: Env, stuff: Parameter.Stuff, t: Target): File {
    File(env.serviceName(t.service, t.rpc) + ".yaml", Text(ConfigTemplate.Render(OptionsFor(env, stuff, t))))
  }

  /** The result of `doMethod`: the manifest of the first generated method of that name, or
      the error. */
  function MethodOutput(env: Env, stuff: Parameter.Stuff, req: Request): Result<Response, string> {
    match FindFirst(Targets(req), stuff.service, stuff.methodName)
    case None => Err(NotFound(stuff.service, stuff.methodName))
    case Some(t) => Ok(Response(None, [ServiceFile(env, stuff, t)]))
  }

  /** The result of `Do`: the method mode when a service or a method is named, the meta
      mode otherwise. Every response is a single file, `korpc.go` in the meta mode. */
  function Output(env: Env, stuff: Parameter.Stuff, req: Request): (r: Result<Response, string>)
    ensures r.Ok? ==> r.value.error.None? && |r.value.files| == 1
    ensures r.Ok? && stuff.service == "" && stuff.methodName == "" ==> r.value.files[0].name == "korpc.go"
    ensures r.Err? ==> stuff.service != "" || stuff.methodName != ""
  {
    if stuff.service != "" || stuff.methodName != "" then MethodOutput(env, stuff, req)
    else Ok(MetaOutput(env, stuff, req))
  }

  // ---------------------------------------------------------------------------
  // The plugin

  method Do(env: Env, stuff: Parameter.Stuff, req: Request) returns (r: Result<Response, string>)
    ensures r == Output(env, stuff, req)
  {
    if stuff.service != "" || stuff.methodName != "" {
      r := DoMethod(env, stuff, req);
      return;
    }
    var resp := DoMeta(env, stuff, req);
    return Ok(resp);
  }

  /** `doMeta`: the proto paths, then one line per method of every file to generate. The
      loop over the services of a file and the loop over the methods of a service are the
      methods `MetaFile` and `MetaService`. */
  method DoMeta(env: Env, stuff: Parameter.Stuff, req: Request) returns (resp: Response)
    ensures resp == MetaOutput(env, stuff, req)
  {
    var codegen := GenerateSet(req);
    var files := ProtoFiles(stuff, req);
    var cmds := ["package config"];
    var i := 0;
    while i < |req.protoFiles|
      invariant i <= |req.protoFiles|
      invariant Emitted(["package config"], MetaLinesOf(env, stuff, files), FileTargets(req.protoFiles[..i], GenSet(req)), cmds)
    {
      VisitFile(req, i);
      if req.protoFiles[i].name in codegen {
        cmds := MetaFile(env, stuff, files, req, i, cmds);
      }
      i := i + 1;
    }
    VisitAll(req);
    resp := Response(None, [File("korpc.go", Text(JoinWith(cmds, "\n")))]);
  }

  method MetaFile(env: Env, stuff: Parameter.Stuff, files: seq<string>, req: Request, i: nat, cmds0: seq<string>)
    returns (cmds: seq<string>)
    requires i < |req.protoFiles| && req.protoFiles[i].name in GenSet(req)
    requires Emitted(["package config"], MetaLinesOf(env, stuff, files), FileTargets(req.protoFiles[..i], GenSet(req)), cmds0)
    ensures Emitted(["package config"], MetaLinesOf(env, stuff, files), FileTargets(req.protoFiles[..i + 1], GenSet(req)), cmds)
  {
    var fd := req.protoFiles[i];
    VisitFile(req, i);
    cmds := cmds0;
    var j := 0;
    while j < |fd.services|
      invariant j <= |fd.services|
      invariant Emitted(["package config"], MetaLinesOf(env, stuff, files), VisitedServices(req, i, j), cmds)
    {
      cmds := MetaService(env, stuff, files, req, i, j, cmds);
      j := j + 1;
    }
  }

  method MetaService(env: Env, stuff: Parameter.Stuff, files: seq<string>, req: Request, i: nat, j: nat, cmds0: seq<string>)
    returns (cmds: seq<string>)
    requires i < |req.protoFiles| && j < |req.protoFiles[i].services|
    requires Emitted(["package config"], MetaLinesOf(env, stuff, files), VisitedServices(req, i, j), cmds0)
    ensures Emitted(["package config"], MetaLinesOf(env, stuff, files), VisitedServices(req, i, j + 1), cmds)
  {
    VisitService(req, i, j);
    cmds := cmds0;
    var k := 0;
    while k < |req.protoFiles[i].services[j].methods|
      invariant k <= |req.protoFiles[i].services[j].methods|
      invariant Emitted(["package config"], MetaLinesOf(env, stuff, files), Visited(req, i, j, k), cmds)
    {
      cmds := MetaMethod(env, stuff, files, req, i, j, k, cmds);
      k := k + 1;
    }
  }

  /** The body of the innermost loop of `doMeta`: the protoc command for method `k` of
      service `j` of file `i`, appended to the lines. */
  method MetaMethod(env: Env, stuff: Parameter.Stuff, files: seq<string>, req: Request, i: nat, j: nat, k: nat, cmds0: seq<string>)
    returns (cmds: seq<string>)
    requires i < |req.protoFiles| && j < |req.protoFiles[i].services| && k < |req.protoFiles[i].services[j].methods|
    requires Emitted(["package config"], MetaLinesOf(env, stuff, files), Visited(req, i, j, k), cmds0)
    ensures Emitted(["package config"], MetaLinesOf(env, stuff, files), Visited(req, i, j, k + 1), cmds)
  {
    var sd := req.protoFiles[i].services[j];
    var md := sd.methods[k];
    var binary, args := Install.ProtoCCmd(env.tc, ".", env.tc.korpcPath,
      Parameter.Stuff("config", stuff.base, stuff.genDir, stuff.methodsDir, sd.name, md.name,
        stuff.nestedDirectory, "", ""),
      files);
    var line := GenerateLine(binary, args);
    ChunksVisit(["package config"], MetaLinesOf(env, stuff, files), req, i, j, k, cmds0, [line]);
    cmds := cmds0 + [line];
  }

  /** `doMethod`: the search for the method, then the manifest. */
  method DoMethod(env: Env, stuff: Parameter.Stuff, req: Request) returns (r: Result<Response, string>)
    ensures r == MethodOutput(env, stuff, req)
  {
    var found := FindTarget(stuff, req);
    if found.None? {
      return Err(NotFound(stuff.service, stuff.methodName));
    }
    var sd, md := found.value.service, found.value.rpc;
    var opt := ConfigTemplate.Options(env.serviceName(sd, md), "default",
      Paths.Join([stuff.base, stuff.genDir, "entrypoint", Lower(sd.name), Lower(md.name)]), "", ZeroOptions);
    if md.korpc.Some? {
      opt := opt.(options := md.korpc.value);
    }
    var mainName := env.serviceName(sd, md) + ".yaml";
    var mainContent := ConfigTemplate.Render(opt);
    return Ok(Response(None, [File(mainName, Text(mainContent))]));
  }

  // ---------------------------------------------------------------------------
  // Properties

  /** The method mode fails exactly when no generated file declares the named method, and
      then with `Unable to find Service.Method`. */
  lemma OutputError(env: Env, stuff: Parameter.Stuff, req: Request)
    ensures Output(env, stuff, req).Err? <==>
      (stuff.service != "" || stuff.methodName != "") && !Declared(req, stuff.service, stuff.methodName)
    ensures Output(env, stuff, req).Err? ==> Output(env, stuff, req).error == NotFound(stuff.service, stuff.methodName)
  {
    FindFirstNone(req, stuff.service, stuff.methodName);
  }

  /** When the named method is declared, the manifest is that of its first occurrence in the
      scan. */
  lemma OutputFound(env: Env, stuff: Parameter.Stuff, req: Request)
    requires stuff.service != "" || stuff.methodName != ""
    requires Declared(req, stuff.service, stuff.methodName)
    ensures exists n :: (0 <= n < |Targets(req)| && FirstMatchIndex(Targets(req), n, stuff.service, stuff.methodName)
      && Output(env, stuff, req) == Ok(Response(None, [ServiceFile(env, stuff, Targets(req)[n])])))
  {
    FindFirstNone(req, stuff.service, stuff.methodName);
    var n := FindFirstIndex(Targets(req), stuff.service, stuff.methodName);
  }

  /** In the method mode the one file is the manifest `<service name>.yaml`. */
  lemma ServiceFileName(env: Env, stuff: Parameter.Stuff, req: Request)
    requires stuff.service != "" || stuff.methodName != ""
    ensures var r := Output(env, stuff, req);
      r.Ok? ==> exists t :: (t in Targets(req) && Matches(t, stuff.service, stuff.methodName)
        && r.value.files[0].name == env.serviceName(t.service, t.rpc) + ".yaml")
  {
    var found := FindFirst(Targets(req), stuff.service, stuff.methodName);
    if found.Some? {
      FindFirstNone(req, stuff.service, stuff.methodName);
      var n := FindFirstIndex(Targets(req), stuff.service, stuff.methodName);
      assert Targets(req)[n] in Targets(req);
    }
  }

  /** Line `0` of the meta file is the package clause; target `n` of the scan owns line
      `n + 1`, the protoc command for that method. */
  lemma MetaLineAt(env: Env, stuff: Parameter.Stuff, files: seq<string>, ts: seq<Target>, n: nat)
    requires n < |ts|
    ensures var lines := ["package config"] + Chunks(MetaLinesOf(env, stuff, files), ts);
      && |lines| == 1 + |ts|
      && lines[0] == "package config"
      && lines[n + 1] == GenerateLine(env.tc.protocBinary,
           Install.ProtoCArgs(env.tc, ".", env.tc.korpcPath, MetaParam(stuff, ts[n]), files))
  {
    MetaLinesSingle(env, stuff, files);
    ChunksSingle(MetaLinesOf(env, stuff, files), ts);
  }

  lemma MetaLinesSingle(env: Env, stuff: Parameter.Stuff, files: seq<string>)
    ensures forall t :: |MetaLinesOf(env, stuff, files)(t)| == 1
  {
  }

  /** Every meta invocation writes into `.`, its `_opt` value decodes to the method's
      parameter, with an empty domain and namespace, and the protos come last. */
  lemma MetaArgs(env: Env, stuff: Parameter.Stuff, files: seq<string>, t: Target)
    ensures var args := Install.ProtoCArgs(env.tc, ".", env.tc.korpcPath, MetaParam(stuff, t), files);
      && |args| == 6 + |files|
      && args[4] == "--config_out=."
      && args[5][..13] == "--config_opt="
      && Parameter.From(args[5][13..]) == Ok(MetaParam(stuff, t))
      && MetaParam(stuff, t).domain == "" && MetaParam(stuff, t).namespace == ""
      && args[6..] == files
  {
    Install.KorpcArgs(env.tc, ".", MetaParam(stuff, t), files);
    ConfigFlags();
  }

  lemma ConfigFlags()
    ensures "--" + "config" + "_out=" + "." == "--config_out=."
    ensures "--" + "config" + "_opt=" == "--config_opt="
  {
  }

  /** From `.`, a nested directory of dot-free components `cs`, the include path climbs one
      `..` per component back to the root of the protos. */
  lemma MetaRoot(env: Env, stuff: Parameter.Stuff, files: seq<string>, t: Target, cs: seq<string>)
    requires forall i :: 0 <= i < |cs| ==> Install.DotFree(cs[i])
    requires stuff.nestedDirectory == JoinWith(cs, "/")
    ensures Install.ProtoCArgs(env.tc, ".", env.tc.korpcPath, MetaParam(stuff, t), files)[2]
      == "-I" + if cs == [] then "." else JoinWith(Paths.DotDots(|cs|), "/")
  {
    Install.ToRootHere(cs, MetaParam(stuff, t));
    Install.ProtoCArgsRoot(env.tc, ".", env.tc.korpcPath, MetaParam(stuff, t), files);
  }

  /** The manifest is named after the service name of the method, in the `default`
      namespace; its image is the method's entrypoint package; and since `MethodLower` is
      never assigned, both probes run `/ko-app/`. */
  lemma ManifestHeader(env: Env, stuff: Parameter.Stuff, t: Target)
    ensures var l := ConfigTemplate.Lines(OptionsFor(env, stuff, t));
      && |l| >= 23
      && l[3] == "  name: " + env.serviceName(t.service, t.rpc)
      && l[4] == "  namespace: " + "default"
      && l[12] == "      - image: " + Paths.Join([stuff.base, stuff.genDir, "entrypoint", Lower(t.service.name), Lower(t.rpc.name)])
      && l[18] == l[21] == "            command: [\"/ko-app/" + "" + "\", \"probe\"]"
  {
    var opt := OptionsFor(env, stuff, t);
    ConfigTemplate.LinesLayout(opt);
    ConfigTemplate.MetadataLines(opt);
    ConfigTemplate.ContainerLines(opt);
  }

  /** The settings, the environment and the resources are those of the method's extension. */
  lemma ManifestOptions(env: Env, stuff: Parameter.Stuff, t: Target)
    ensures var l := ConfigTemplate.Lines(OptionsFor(env, stuff, t));
      && |l| >= 23
      && l[8..11] == ConfigTemplate.Settings(Extension(t.rpc))
      && l[23..] == ConfigTemplate.Body(Extension(t.rpc))
  {
    ConfigTemplate.LinesLayout(OptionsFor(env, stuff, t));
  }

  /** A method without the extension gets three blank settings, no variables and empty
      resource maps. */
  lemma PlainManifest(env: Env, stuff: Parameter.Stuff, t: Target)
    requires t.rpc.korpc.None?
    ensures var l := ConfigTemplate.Lines(OptionsFor(env, stuff, t));
      && l[8..11] == ["      ", "      ", "      "]
      && l[23..] == ["        resources:", "          limits:", "          requests:"]
  {
    ManifestOptions(env, stuff, t);
    ConfigTemplate.ServiceAccountLine(ZeroOptions);
    ConfigTemplate.ConcurrencyLine(ZeroOptions);
    ConfigTemplate.TimeoutLine(ZeroOptions);
    ConfigTemplate.NoResources(ZeroOptions);
    ConfigTemplate.BodyLayout(ZeroOptions);
  }
}
