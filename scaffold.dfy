/** `pkg/protoplugin/scaffold`: the starting point of a method's implementation, a
    `main.go` in the method's package whose one function fails with a reminder that it is
    not written yet, for the named method only. */
module Scaffold {
  import opened Wrappers
  import opened Text
  import Paths
  import Parameter
  import opened Descriptor
  import opened Backend

  /** The error text the stub returns. */
  function Reminder(sd: ServiceDesc, md: MethodDesc): string {
    "You need to implement " + sd.name + "." + md.name + "!!!"
  }

  /** `unimpl`: the method template and the error template of the method's shape, the error
      template executed with the reminder. */
  function Unimpl(sd: ServiceDesc, md: MethodDesc): Content {
    Render(ScaffoldMethod(ShapeOf(md)), UnimplFields(sd, md))
  }

  /** The values `unimpl` executes the method template with: the method is a receiverless
      `Impl`, since the package already carries the method's name. */
  function UnimplFields(sd: ServiceDesc, md: MethodDesc): map<string, Content> {
    map[
      "Service" := Text(sd.name),
      "Method" := Text(md.name),
      "RequestType" := Text(AfterLastDot(md.inputType)),
      "ResponseType" := Text(AfterLastDot(md.outputType)),
      "Name" := Text("Impl"),
      "Receiver" := Text(""),
      "Body" := Render(ScaffoldError(ShapeOf(md)), map["." := Text(Reminder(sd, md))])]
  }

  /** `tmpl` executed with the `options` of the method found. */
  function MainFile(stuff: Parameter.Stuff, t: Target): Content {
    Render(ScaffoldMain, map[
      "Package" := Text(Lower(t.rpc.name)),
      "ProtoImportPath" := Text(ProtoImportPath(stuff, t.file)),
      "Body" := Unimpl(t.service, t.rpc)])
  }

  /** The result of `Do`: `main.go` for the first generated method of that name, or the
      error. */
  function Output(stuff: Parameter.Stuff, req: Request): (r: Result<Response, string>)
    ensures r.Ok? ==> r.value.error.None? && |r.value.files| == 1 && r.value.files[0].name == "main.go"
    ensures r.Err? ==> r.error == NotFound(stuff.service, stuff.methodName)
  {
    match FindFirst(Targets(req), stuff.service, stuff.methodName)
    case None => Err(NotFound(stuff.service, stuff.methodName))
    case Some(t) => Ok(Response(None, [File("main.go", MainFile(stuff, t))]))
  }

  // ---------------------------------------------------------------------------
  // The plugin

  /** `Do`: `getDescriptors` is the early-return search `FindTarget`; then the stub body,
      the options and the file. */
  method Do(stuff: Parameter.Stuff, req: Request) returns (r: Result<Response, string>)
    ensures r == Output(stuff, req)
  {
    var found := FindTarget(stuff, req);
    if found.None? {
      return Err(NotFound(stuff.service, stuff.methodName));
    }
    var fd, sd, md := found.value.file, found.value.service, found.value.rpc;
    var body := Unimpl(sd, md);
    var opt := map[
      "Package" := Text(Lower(md.name)),
      "ProtoImportPath" := Text(Paths.Join([stuff.base, stuff.genDir, "proto", Paths.Dir(fd.name)])),
      "Body" := body];
    return Ok(Response(None, [File("main.go", Render(ScaffoldMain, opt))]));
  }

  // ---------------------------------------------------------------------------
  // Properties

  /** `Do` fails exactly when no generated file declares the named method. */
  lemma OutputError(stuff: Parameter.Stuff, req: Request)
    ensures Output(stuff, req).Err? <==> !Declared(req, stuff.service, stuff.methodName)
  {
    FindFirstNone(req, stuff.service, stuff.methodName);
  }

  /** When the named method is declared, the stub is that of its first occurrence in the
      scan, a method of a service of a file to generate. */
  lemma OutputFound(stuff: Parameter.Stuff, req: Request)
    requires Declared(req, stuff.service, stuff.methodName)
    ensures exists n :: (0 <= n < |Targets(req)| && FirstMatchIndex(Targets(req), n, stuff.service, stuff.methodName)
      && Targets(req)[n].file in req.protoFiles && Targets(req)[n].file.name in req.fileToGenerate
      && Targets(req)[n].service in Targets(req)[n].file.services
      && Targets(req)[n].rpc in Targets(req)[n].service.methods
      && Output(stuff, req) == Ok(Response(None, [File("main.go", MainFile(stuff, Targets(req)[n]))])))
  {
    FindFirstNone(req, stuff.service, stuff.methodName);
    var n := FindFirstIndex(Targets(req), stuff.service, stuff.methodName);
    TargetsMember(req, Targets(req)[n]);
  }

  /** The values of the main template: the package named after the method, the proto
      package of the method's file, and the stub. */
  lemma MainFields(stuff: Parameter.Stuff, t: Target)
    ensures var c := MainFile(stuff, t);
      && c.Render? && c.template == ScaffoldMain
      && c.fields["Package"] == Text(Lower(t.rpc.name))
      && c.fields["ProtoImportPath"] == Text(Paths.Join([stuff.base, stuff.genDir, "proto", Paths.Dir(t.file.name)]))
      && c.fields["Body"] == Unimpl(t.service, t.rpc)
  {
  }

  /** The template pair `unimpl` picks for each combination of streaming flags, and the
      reminder its error template is executed with. */
  lemma UnimplTemplates(sd: ServiceDesc, md: MethodDesc)
    ensures var c := Unimpl(sd, md);
      && c.Render? && "Body" in c.fields && c.fields["Body"].Render?
      && var e := c.fields["Body"];
      && (c.template == ScaffoldMethod(Unary) && e.template == ScaffoldError(Unary) <==> !md.clientStreaming && !md.serverStreaming)
      && (c.template == ScaffoldMethod(StreamInOut) && e.template == ScaffoldError(StreamInOut) <==> md.clientStreaming && md.serverStreaming)
      && (c.template == ScaffoldMethod(StreamIn) && e.template == ScaffoldError(StreamIn) <==> md.clientStreaming && !md.serverStreaming)
      && (c.template == ScaffoldMethod(StreamOut) && e.template == ScaffoldError(StreamOut) <==> !md.clientStreaming && md.serverStreaming)
      && e.fields == map["." := Text("You need to implement " + sd.name + "." + md.name + "!!!")]
  {
    ShapeOfFlags(md);
  }

  /** The remaining values of the stub: the service and method names, a receiverless
      `Impl`, and the request and response types without their package. */
  lemma UnimplValues(sd: ServiceDesc, md: MethodDesc)
    ensures var c := Unimpl(sd, md);
      && c.Render?
      && c.fields.Keys == {"Service", "Method", "RequestType", "ResponseType", "Name", "Receiver", "Body"}
      && c.fields["Service"] == Text(sd.name)
      && c.fields["Method"] == Text(md.name)
      && c.fields["Name"] == Text("Impl")
      && c.fields["Receiver"] == Text("")
      && c.fields["RequestType"] == Text(AfterLastDot(md.inputType))
      && c.fields["ResponseType"] == Text(AfterLastDot(md.outputType))
  {
  }
}
