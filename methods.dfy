/** `pkg/protoplugin/methods`: the implementation packages. With no method named it writes
    the meta file that re-runs it once per method; with a method named it writes a
    `korpc.go` in the method's package whose one `//go:generate` line runs the scaffold
    backend into that directory, so that re-running it never overwrites user code. */
module Methods {
  import opened Wrappers
  import opened Text
  import Paths
  import Parameter
  import Install
  import opened Descriptor
  import opened Backend

  /** The parameter of the scaffold invocation: the method's names, the nested directory,
      `base`, `genDir`, `methodsDir`, `domain` and `namespace` as given. */
  function ScaffoldParam(stuff: Parameter.Stuff, t: Target): Parameter.Stuff {
    Parameter.Stuff("scaffold", stuff.base, stuff.genDir, stuff.methodsDir, t.service.name, t.rpc.name,
      stuff.nestedDirectory, stuff.domain, stuff.namespace)
  }

  /** The lines of the method's `korpc.go`: its package clause, then protoc with korpc's
      scaffold mode writing into `.`. */
  function Lines(env: Env, stuff: Parameter.Stuff, files: seq<string>, t: Target): seq<string> {
    [ "package " + Lower(t.rpc.name),
      GenerateLine(env.tc.protocBinary, Install.ProtoCArgs(env.tc, ".", env.tc.korpcPath, ScaffoldParam(stuff, t), files)) ]
  }

  /** The result of `doMethod`: the first generated method of that name, or the error. */
  function MethodOutput(env: Env, stuff: Parameter.Stuff, req: Request): Result<Response, string> {
    match FindFirst(Targets(req), stuff.service, stuff.methodName)
    case None => Err(NotFound(stuff.service, stuff.methodName))
    case Some(t) => Ok(MetaResponse(Lines(env, stuff, ProtoPaths(stuff, req.fileToGenerate), t)))
  }

  /** The result of `Do`: the method mode when a service or a method is named, the meta
      mode otherwise. Every response is the single file `korpc.go`. */
  function Output(env: Env, stuff: Parameter.Stuff, req: Request): (r: Result<Response, string>)
    ensures r.Ok? ==> r.value.error.None? && |r.value.files| == 1 && r.value.files[0].name == "korpc.go"
    ensures r.Err? ==> stuff.service != "" || stuff.methodName != ""
  {
    if stuff.service != "" || stuff.methodName != "" then MethodOutput(env, stuff, req)
    else Ok(MetaOutput(env, "methods", stuff, req))
  }

  // ---------------------------------------------------------------------------
  // The plugin

  method Do(env: Env, stuff: Parameter.Stuff, req: Request) returns (r: Result<Response, string>)
    ensures r == Output(env, stuff, req)
  {
    if stuff.service != "" || stuff.methodName != "" {
      r := DoMethod(env, stuff, req);
      return;
    }
    var resp := NestedMeta(env, "methods", stuff, req);
    return Ok(resp);
  }

  /** `doMethod`: the proto paths, the search for the method, then the scaffold command. */
  method DoMethod(env: Env, stuff: Parameter.Stuff, req: Request) returns (r: Result<Response, string>)
    ensures r == MethodOutput(env, stuff, req)
  {
    var files := ProtoFiles(stuff, req);
    var found := FindTarget(stuff, req);
    if found.None? {
      return Err(NotFound(stuff.service, stuff.methodName));
    }
    var sd, md := found.value.service, found.value.rpc;
    var binary, args := Install.ProtoCCmd(env.tc, ".", env.tc.korpcPath,
      Parameter.Stuff("scaffold", stuff.base, stuff.genDir, stuff.methodsDir, sd.name, md.name,
        stuff.nestedDirectory, stuff.domain, stuff.namespace),
      files);
    var cmds := ["package " + Lower(md.name), GenerateLine(binary, args)];
    return Ok(Response(None, [File("korpc.go", Text(JoinWith(cmds, "\n")))]));
  }

  // ---------------------------------------------------------------------------
  // Properties

  /** The method mode fails exactly when no generated file declares the named method, and
      then with `Unable to find Service.Method`. */
  lemma OutputError(env: Env, stuff: Parameter.Stuff, req: Request)
    ensures Output(env, stuff, req).Err? <==>
      (stuff.service != "" || stuff.methodName != "") && !Declared(req, stuff.service, stuff.methodName)
    ensures Output(env, stuff, req).Err? ==> Output(env, stuff, req).error == NotFound(stuff.service, stuff.methodName)
  {
    FindFirstNone(req, stuff.service, stuff.methodName);
  }

  /** When the named method is declared, the file is that of its first occurrence in the
      scan. */
  lemma OutputFound(env: Env, stuff: Parameter.Stuff, req: Request)
    requires stuff.service != "" || stuff.methodName != ""
    requires Declared(req, stuff.service, stuff.methodName)
    ensures exists n :: (0 <= n < |Targets(req)| && FirstMatchIndex(Targets(req), n, stuff.service, stuff.methodName)
      && Output(env, stuff, req) == Ok(MetaResponse(Lines(env, stuff, ProtoPaths(stuff, req.fileToGenerate), Targets(req)[n]))))
  {
    FindFirstNone(req, stuff.service, stuff.methodName);
    var n := FindFirstIndex(Targets(req), stuff.service, stuff.methodName);
  }

  /** The scaffold command writes into `.`, its `_opt` value decodes to the scaffold
      parameter of the method, and the protos come last. */
  lemma ScaffoldArgs(env: Env, stuff: Parameter.Stuff, files: seq<string>, t: Target)
    ensures var args := Install.ProtoCArgs(env.tc, ".", env.tc.korpcPath, ScaffoldParam(stuff, t), files);
      && |args| == 6 + |files|
      && args[4] == "--scaffold_out=."
      && args[5][..15] == "--scaffold_opt="
      && Parameter.From(args[5][15..]) == Ok(ScaffoldParam(stuff, t))
      && args[6..] == files
  {
    Install.KorpcArgs(env.tc, ".", ScaffoldParam(stuff, t), files);
    ScaffoldFlags();
  }

  lemma ScaffoldFlags()
    ensures "--" + "scaffold" + "_out=" + "." == "--scaffold_out=."
    ensures "--" + "scaffold" + "_opt=" == "--scaffold_opt="
  {
  }

  /** From the method's directory, a nested directory of dot-free components `cs`, the
      include path climbs one `..` per component back to the root of the protos. */
  lemma ScaffoldRoot(env: Env, stuff: Parameter.Stuff, files: seq<string>, t: Target, cs: seq<string>)
    requires forall i :: 0 <= i < |cs| ==> Install.DotFree(cs[i])
    requires stuff.nestedDirectory == JoinWith(cs, "/")
    ensures Install.ProtoCArgs(env.tc, ".", env.tc.korpcPath, ScaffoldParam(stuff, t), files)[2]
      == "-I" + if cs == [] then "." else JoinWith(Paths.DotDots(|cs|), "/")
  {
    Install.ToRootHere(cs, ScaffoldParam(stuff, t));
    Install.ProtoCArgsRoot(env.tc, ".", env.tc.korpcPath, ScaffoldParam(stuff, t), files);
  }
}
