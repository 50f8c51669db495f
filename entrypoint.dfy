/** `pkg/protoplugin/entrypoint`: the gRPC server `main` of one method. With no method named
    it writes the meta file whose `//go:generate` lines re-run it once per method; with a
    method named it fills the main template with that method's import paths and handler. */
module Entrypoint {
  import opened Wrappers
  import opened Text
  import Paths
  import Parameter
  import opened Descriptor
  import opened Backend

  /** The `options` the main template is executed with. `UnimplementedMethods` is never
      assigned, so it is rendered empty. */
  datatype Options = Options(protoImportPath: string, implImportPath: string, service: string, implementation: Content)

  /** The options before the scan: the implementation package of the named method and its
      service; the proto import path and the implementation still empty. */
  function Start(stuff: Parameter.Stuff): Options {
    Options("", Paths.Join([stuff.base, stuff.methodsDir, Lower(stuff.service), Lower(stuff.methodName)]), stuff.service, Text(""))
  }

  /** `impl`: the server method that forwards to the implementation package. A unary method
      uses the scaffold's unary template with a body that calls `impl.Impl`; a streaming one
      the entrypoint's template for its shape. */
  function Impl(sd: ServiceDesc, md: MethodDesc): Content {
    match ShapeOf(md)
    case Unary => Render(ScaffoldMethod(Unary), ImplBase(sd, md)["Body" := Text("return impl.Impl(ctx, req)")])
    case s => Render(EntrypointMethod(s), ImplBase(sd, md))
  }

  /** The values `impl` gives every template. */
  function ImplBase(sd: ServiceDesc, md: MethodDesc): map<string, Content> {
    map[
      "Service" := Text(sd.name),
      "Method" := Text(md.name),
      "Name" := Text(md.name),
      "RequestType" := Text(AfterLastDot(md.inputType)),
      "ResponseType" := Text(AfterLastDot(md.outputType)),
      "Receiver" := Text("(s *server) ")]
  }

  /** What a match at `t` writes into the options. */
  function Matched(stuff: Parameter.Stuff, opt: Options, t: Target): Options {
    opt.(protoImportPath := ProtoImportPath(stuff, t.file), implementation := Impl(t.service, t.rpc))
  }

  /** The options after the scan of `ts`: every match overwrites the previous one, so they
      are those of the last match, or the starting options when nothing matched. */
  function Scanned(stuff: Parameter.Stuff, ts: seq<Target>): Options {
    match FindLast(ts, stuff.service, stuff.methodName)
    case None => Start(stuff)
    case Some(t) => Matched(stuff, Start(stuff), t)
  }

  /** `opt` holds the options the scan of `ts` leaves. */
  predicate ScannedTo(stuff: Parameter.Stuff, ts: seq<Target>, opt: Options) {
    opt == Scanned(stuff, ts)
  }

  /** `tmpl` executed with the options. */
  function MainFile(opt: Options): Content {
    Render(EntrypointMain, map[
      "ProtoImportPath" := Text(opt.protoImportPath),
      "ImplImportPath" := Text(opt.implImportPath),
      "Service" := Text(opt.service),
      "Implementation" := opt.implementation,
      "UnimplementedMethods" := Items([])])
  }

  /** The response of `doMethod`: `main.go`, whether or not the method was found. */
  function MethodOutput(stuff: Parameter.Stuff, req: Request): Response {
    Response(None, [File("main.go", MainFile(Scanned(stuff, Targets(req))))])
  }

  /** The response of `Do`: the method mode when a service or a method is named, the meta
      mode otherwise. Neither mode reports an error. */
  function Output(env: Env, stuff: Parameter.Stuff, req: Request): (r: Result<Response, string>)
    ensures r.Ok? && |r.value.files| == 1 && r.value.error.None?
    ensures r.value.files[0].name == if stuff.service != "" || stuff.methodName != "" then "main.go" else "korpc.go"
  {
    if stuff.service != "" || stuff.methodName != "" then Ok(MethodOutput(stuff, req))
    else Ok(MetaOutput(env, "entrypoint", stuff, req))
  }

  // ---------------------------------------------------------------------------
  // The plugin

  method Do(env: Env, stuff: Parameter.Stuff, req: Request) returns (r: Result<Response, string>)
    ensures r == Output(env, stuff, req)
  {
    if stuff.service != "" || stuff.methodName != "" {
      var resp := DoMethod(stuff, req);
      return Ok(resp);
    }
    var resp := NestedMeta(env, "entrypoint", stuff, req);
    return Ok(resp);
  }

  /** `doMethod`: the scan over every method to generate, overwriting the options on each
      match. The loop over the services of a file and the loop over the methods of a service
      are the methods `ScanFile` and `ScanService`. */
  method DoMethod(stuff: Parameter.Stuff, req: Request) returns (resp: Response)
    ensures resp == MethodOutput(stuff, req)
  {
    var codegen := GenerateSet(req);
    var opt := Options("", Paths.Join([stuff.base, stuff.methodsDir, Lower(stuff.service), Lower(stuff.methodName)]), stuff.service, Text(""));
    var i := 0;
    while i < |req.protoFiles|
      invariant i <= |req.protoFiles|
      invariant ScannedTo(stuff, FileTargets(req.protoFiles[..i], GenSet(req)), opt)
    {
      VisitFile(req, i);
      if req.protoFiles[i].name in codegen {
        opt := ScanFile(stuff, req, i, opt);
      }
      i := i + 1;
    }
    VisitAll(req);
    resp := Response(None, [File("main.go", MainFile(opt))]);
  }

  method ScanFile(stuff: Parameter.Stuff, req: Request, i: nat, opt0: Options) returns (opt: Options)
    requires i < |req.protoFiles| && req.protoFiles[i].name in GenSet(req)
    requires ScannedTo(stuff, FileTargets(req.protoFiles[..i], GenSet(req)), opt0)
    ensures ScannedTo(stuff, FileTargets(req.protoFiles[..i + 1], GenSet(req)), opt)
  {
    var fd := req.protoFiles[i];
    VisitFile(req, i);
    opt := opt0;
    var j := 0;
    while j < |fd.services|
      invariant j <= |fd.services|
      invariant ScannedTo(stuff, VisitedServices(req, i, j), opt)
    {
      opt := ScanService(stuff, req, i, j, opt);
      j := j + 1;
    }
  }

  method ScanService(stuff: Parameter.Stuff, req: Request, i: nat, j: nat, opt0: Options) returns (opt: Options)
    requires i < |req.protoFiles| && j < |req.protoFiles[i].services|
    requires ScannedTo(stuff, VisitedServices(req, i, j), opt0)
    ensures ScannedTo(stuff, VisitedServices(req, i, j + 1), opt)
  {
    var fd := req.protoFiles[i];
    var sd := fd.services[j];
    VisitService(req, i, j);
    opt := opt0;
    var k := 0;
    while k < |sd.methods|
      invariant k <= |sd.methods|
      invariant ScannedTo(stuff, Visited(req, i, j, k), opt)
    {
      var md := sd.methods[k];
      ScannedStep(stuff, Visited(req, i, j, k), Target(fd, sd, md));
      VisitMethod(req, i, j, k);
      if sd.name == stuff.service && md.name == stuff.methodName {
        opt := opt.(protoImportPath := Paths.Join([stuff.base, stuff.genDir, "proto", Paths.Dir(fd.name)]),
                    implementation := Impl(sd, md));
      }
      k := k + 1;
    }
  }

  // ---------------------------------------------------------------------------
  // Properties

  /** One step of the scan: a match overwrites the proto import path and the
      implementation, anything else leaves the options alone. */
  lemma ScannedStep(stuff: Parameter.Stuff, ts: seq<Target>, t: Target)
    ensures Scanned(stuff, ts + [t]) ==
      if Matches(t, stuff.service, stuff.methodName) then Matched(stuff, Scanned(stuff, ts), t) else Scanned(stuff, ts)
  {
    FindLastStep(ts, t, stuff.service, stuff.methodName);
  }

  /** The main file of the method mode. The implementation import path and the service
      always come from the parameter. When no generated file declares the method the proto
      import path and the implementation stay empty; otherwise they are those of a matching
      method with no matching method after it in the scan. */
  lemma MethodMain(stuff: Parameter.Stuff, req: Request)
    ensures var c := MethodOutput(stuff, req).files[0].content;
      && c.Render? && c.template == EntrypointMain
      && c.fields["ImplImportPath"] == Text(Paths.Join([stuff.base, stuff.methodsDir, Lower(stuff.service), Lower(stuff.methodName)]))
      && c.fields["Service"] == Text(stuff.service)
      && c.fields["UnimplementedMethods"] == Items([])
      && (!Declared(req, stuff.service, stuff.methodName) ==>
            c.fields["ProtoImportPath"] == Text("") && c.fields["Implementation"] == Text(""))
      && (Declared(req, stuff.service, stuff.methodName) ==>
            exists n :: 0 <= n < |Targets(req)| && LastMatchAt(stuff, Targets(req), n)
              && c.fields["ProtoImportPath"] == Text(ProtoImportPath(stuff, Targets(req)[n].file))
              && c.fields["Implementation"] == Impl(Targets(req)[n].service, Targets(req)[n].rpc))
  {
    var opt := Scanned(stuff, Targets(req));
    MainFields(opt);
    FindLastNone(req, stuff.service, stuff.methodName);
    if Declared(req, stuff.service, stuff.methodName) {
      var n := ScannedLast(stuff, Targets(req));
    }
  }

  /** The values the main template is executed with. */
  lemma MainFields(opt: Options)
    ensures var c := MainFile(opt);
      && c.Render? && c.template == EntrypointMain
      && c.fields["ProtoImportPath"] == Text(opt.protoImportPath)
      && c.fields["ImplImportPath"] == Text(opt.implImportPath)
      && c.fields["Service"] == Text(opt.service)
      && c.fields["Implementation"] == opt.implementation
      && c.fields["UnimplementedMethods"] == Items([])
  {
  }

  /** After a scan that found the method, the options are those of its last match. */
  lemma ScannedLast(stuff: Parameter.Stuff, ts: seq<Target>) returns (n: nat)
    requires FindLast(ts, stuff.service, stuff.methodName).Some?
    ensures n < |ts| && LastMatchAt(stuff, ts, n)
    ensures Scanned(stuff, ts) == Matched(stuff, Start(stuff), ts[n])
  {
    FindLastSpec(ts, stuff.service, stuff.methodName);
    n :| 0 <= n < |ts| && ts[n] == FindLast(ts, stuff.service, stuff.methodName).value
      && Matches(ts[n], stuff.service, stuff.methodName)
      && forall m :: n < m < |ts| ==> !Matches(ts[m], stuff.service, stuff.methodName);
  }

  /** Target `n` matches the named method and no target after it does. */
  predicate LastMatchAt(stuff: Parameter.Stuff, ts: seq<Target>, n: nat)
    requires n < |ts|
  {
    && Matches(ts[n], stuff.service, stuff.methodName)
    && forall m :: n < m < |ts| ==> !Matches(ts[m], stuff.service, stuff.methodName)
  }

  /** The template `impl` picks for each combination of streaming flags; only the unary
      template is given a body, the call of `impl.Impl`. */
  lemma ImplTemplate(sd: ServiceDesc, md: MethodDesc)
    ensures var c := Impl(sd, md);
      && c.Render?
      && (c.template == ScaffoldMethod(Unary) <==> !md.clientStreaming && !md.serverStreaming)
      && (c.template == EntrypointMethod(StreamInOut) <==> md.clientStreaming && md.serverStreaming)
      && (c.template == EntrypointMethod(StreamIn) <==> md.clientStreaming && !md.serverStreaming)
      && (c.template == EntrypointMethod(StreamOut) <==> !md.clientStreaming && md.serverStreaming)
      && ("Body" in c.fields <==> ShapeOf(md) == Unary)
      && ("Body" in c.fields ==> c.fields["Body"] == Text("return impl.Impl(ctx, req)"))
  {
    ShapeOfFlags(md);
  }

  /** The values `impl` gives every template: the method's names, the request and response
      types without their package, and the server receiver. */
  lemma ImplValues(sd: ServiceDesc, md: MethodDesc)
    ensures var c := Impl(sd, md);
      && c.Render?
      && c.fields.Keys >= {"Service", "Method", "Name", "RequestType", "ResponseType", "Receiver"}
      && c.fields["Service"] == Text(sd.name)
      && c.fields["Method"] == Text(md.name) && c.fields["Name"] == Text(md.name)
      && c.fields["RequestType"] == Text(AfterLastDot(md.inputType))
      && c.fields["ResponseType"] == Text(AfterLastDot(md.outputType))
      && c.fields["Receiver"] == Text("(s *server) ")
  {
    var b := ImplBase(sd, md);
    var c := Impl(sd, md);
    assert c.fields == b || c.fields == b["Body" := Text("return impl.Impl(ctx, req)")];
  }
}
