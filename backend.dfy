/** What the generator backends share: the `codegen` set and the proto paths their `Do`
    methods start from, the early-return scan for one `Service.Method`, and the
    `//go:generate` lines that re-invoke protoc on a generated directory. */
module Backend {
  import opened Wrappers
  import opened Text
  import Paths
  import Parameter
  import Install
  import opened Descriptor

  /** What the backends read besides their arguments: where protoc and the plugins are
      installed, and `naming.Service`, whose definition is not part of this model. */
  datatype Env = Env(tc: Install.Toolchain, serviceName: (ServiceDesc, MethodDesc) -> string)

  // ---------------------------------------------------------------------------
  // The loop over FileToGenerate

  /** The `files` slice: each name of `names` below the escaped nested directory. */
  function ProtoPaths(stuff: Parameter.Stuff, names: seq<string>): seq<string> {
    if names == [] then []
    else ProtoPaths(stuff, names[..|names| - 1]) + [Paths.Join([Parameter.NestingEscape(stuff), names[|names| - 1]])]
  }

  /** One proto path per name, in the order of `names`. */
  lemma {:induction false} ProtoPathsIndex(stuff: Parameter.Stuff, names: seq<string>)
    ensures |ProtoPaths(stuff, names)| == |names|
    ensures forall i :: 0 <= i < |names| ==>
      ProtoPaths(stuff, names)[i] == Paths.Join([Parameter.NestingEscape(stuff), names[i]])
    decreases |names|
  {
    if names != [] {
      ProtoPathsIndex(stuff, names[..|names| - 1]);
    }
  }

  /** The `codegen` set, filled name by name. */
  method GenerateSet(req: Request) returns (codegen: set<string>)
    ensures codegen == GenSet(req)
  {
    codegen := {};
    var i := 0;
    while i < |req.fileToGenerate|
      invariant i <= |req.fileToGenerate|
      invariant forall f :: f in codegen <==> f in req.fileToGenerate[..i]
    {
      assert req.fileToGenerate[..i + 1] == req.fileToGenerate[..i] + [req.fileToGenerate[i]];
      codegen := codegen + {req.fileToGenerate[i]};
      i := i + 1;
    }
    WholePrefix(req.fileToGenerate);
  }

  /** The `files` slice, appended name by name. */
  method ProtoFiles(stuff: Parameter.Stuff, req: Request) returns (files: seq<string>)
    ensures files == ProtoPaths(stuff, req.fileToGenerate)
  {
    files := [];
    var i := 0;
    while i < |req.fileToGenerate|
      invariant i <= |req.fileToGenerate|
      invariant files == ProtoPaths(stuff, req.fileToGenerate[..i])
    {
      assert req.fileToGenerate[..i + 1][..i] == req.fileToGenerate[..i];
      files := files + [Paths.Join([Parameter.NestingEscape(stuff), req.fileToGenerate[i]])];
      i := i + 1;
    }
    WholePrefix(req.fileToGenerate);
  }

  // ---------------------------------------------------------------------------
  // Finding Service.Method

  /** No target of `ts` is `service.methodName`. */
  predicate NoneMatch(ts: seq<Target>, service: string, methodName: string) {
    forall x :: x in ts ==> !Matches(x, service, methodName)
  }

  lemma NoneMatchStep(ts: seq<Target>, t: Target, service: string, methodName: string)
    requires NoneMatch(ts, service, methodName) && !Matches(t, service, methodName)
    ensures NoneMatch(ts + [t], service, methodName)
  {
  }

  /** `t` is method `k` of service `j` of file `i`, it matches, and nothing the loops
      visited before it does. */
  predicate FirstAt(req: Request, i: nat, j: nat, k: nat, service: string, methodName: string, t: Target) {
    && i < |req.protoFiles| && j < |req.protoFiles[i].services| && k < |req.protoFiles[i].services[j].methods|
    && NoneMatch(Visited(req, i, j, k), service, methodName)
    && t == Target(req.protoFiles[i], req.protoFiles[i].services[j], req.protoFiles[i].services[j].methods[k])
    && Matches(t, service, methodName)
  }

  /** A match right after a match-free stretch of the scan is the first match. */
  lemma FirstMatchAt(req: Request, i: nat, j: nat, k: nat, service: string, methodName: string, t: Target)
    requires i < |req.protoFiles| && req.protoFiles[i].name in GenSet(req)
    requires FirstAt(req, i, j, k, service, methodName, t)
    ensures FindFirst(Targets(req), service, methodName) == Some(t)
  {
    ScanPrefix(req, i, j, k);
    FindFirstAt(Visited(req, i, j, k), t, Targets(req), service, methodName);
  }

  /** `getSDPAndMDP` (methods, config) and `getDescriptors` (scaffold): the nested loops
      return the first generated method whose service and method names match. The loop
      over the services of a file and the loop over the methods of a service are the
      methods `FindInFile` and `FindInService`; a match returns through all three, with
      the ghost position where it was found. */
  method FindTarget(stuff: Parameter.Stuff, req: Request) returns (r: Option<Target>)
    ensures r == FindFirst(Targets(req), stuff.service, stuff.methodName)
  {
    var codegen := GenerateSet(req);
    var i := 0;
    while i < |req.protoFiles|
      invariant i <= |req.protoFiles|
      invariant NoneMatch(FileTargets(req.protoFiles[..i], GenSet(req)), stuff.service, stuff.methodName)
    {
      VisitFile(req, i);
      if req.protoFiles[i].name in codegen {
        ghost var j, k;
        r, j, k := FindInFile(stuff, req, i);
        if r.Some? {
          FirstMatchAt(req, i, j, k, stuff.service, stuff.methodName, r.value);
          return;
        }
      }
      i := i + 1;
    }
    VisitAll(req);
    FindFirstSpec(Targets(req), stuff.service, stuff.methodName);
    r := None;
  }

  method FindInFile(stuff: Parameter.Stuff, req: Request, i: nat) returns (r: Option<Target>, ghost j: nat, ghost k: nat)
    requires i < |req.protoFiles| && req.protoFiles[i].name in GenSet(req)
    requires NoneMatch(FileTargets(req.protoFiles[..i], GenSet(req)), stuff.service, stuff.methodName)
    ensures r.Some? ==> FirstAt(req, i, j, k, stuff.service, stuff.methodName, r.value)
    ensures r.None? ==> NoneMatch(FileTargets(req.protoFiles[..i + 1], GenSet(req)), stuff.service, stuff.methodName)
  {
    var fd := req.protoFiles[i];
    VisitFile(req, i);
    j, k := 0, 0;
    var s := 0;
    while s < |fd.services|
      invariant s <= |fd.services|
      invariant NoneMatch(VisitedServices(req, i, s), stuff.service, stuff.methodName)
    {
      r, k := FindInService(stuff, req, i, s);
      if r.Some? {
        j := s;
        return;
      }
      s := s + 1;
    }
    r := None;
  }

  method FindInService(stuff: Parameter.Stuff, req: Request, i: nat, j: nat) returns (r: Option<Target>, ghost k: nat)
    requires i < |req.protoFiles| && j < |req.protoFiles[i].services|
    requires NoneMatch(VisitedServices(req, i, j), stuff.service, stuff.methodName)
    ensures r.Some? ==> FirstAt(req, i, j, k, stuff.service, stuff.methodName, r.value)
    ensures r.None? ==> NoneMatch(VisitedServices(req, i, j + 1), stuff.service, stuff.methodName)
  {
    var fd := req.protoFiles[i];
    var sd := fd.services[j];
    VisitService(req, i, j);
    k := 0;
    var m := 0;
    while m < |sd.methods|
      invariant m <= |sd.methods|
      invariant NoneMatch(Visited(req, i, j, m), stuff.service, stuff.methodName)
    {
      var md := sd.methods[m];
      if sd.name == stuff.service && md.name == stuff.methodName {
        r, k := Some(Target(fd, sd, md)), m;
        return;
      }
      VisitMethod(req, i, j, m);
      NoneMatchStep(Visited(req, i, j, m), Target(fd, sd, md), stuff.service, stuff.methodName);
      m := m + 1;
    }
    r := None;
  }

  /** The Go package protoc-gen-go generates for the file `fd`: its directory below
      `base/genDir/proto`. */
  function ProtoImportPath(stuff: Parameter.Stuff, fd: FileDesc): string {
    Paths.Join([stuff.base, stuff.genDir, "proto", Paths.Dir(fd.name)])
  }

  // ---------------------------------------------------------------------------
  // go:generate lines

  /** `//go:generate <binary> <args joined by spaces>`, with the trailing newline the
      backends put in the format string. */
  function GenerateLine(binary: string, args: seq<string>): string {
    "//go:generate " + binary + " " + JoinWith(args, " ") + "\n"
  }

  function MkdirLine(dir: string): string {
    "//go:generate mkdir -p " + dir
  }

  /** The output directory of one method: `lower(service)/lower(method)`. */
  function MethodDir(t: Target): string {
    Paths.Join([Lower(t.service.name), Lower(t.rpc.name)])
  }

  /** The parameter of the sub-invocation the entrypoint and methods meta modes write for
      one method: the plugin `kind`, the method's names and the nested directory extended
      by the method's directory; `base`, `genDir`, `methodsDir`, `domain`, `namespace` copied. */
  function NestedParam(kind: string, stuff: Parameter.Stuff, t: Target): Parameter.Stuff {
    Parameter.Stuff(kind, stuff.base, stuff.genDir, stuff.methodsDir, t.service.name, t.rpc.name,
      Paths.Join([stuff.nestedDirectory, MethodDir(t)]), stuff.domain, stuff.namespace)
  }

  /** The two lines for one method: make its directory, then run protoc with korpc into it. */
  function NestedLines(env: Env, kind: string, stuff: Parameter.Stuff, files: seq<string>, t: Target): seq<string> {
    var dir := MethodDir(t);
    [ MkdirLine(dir),
      GenerateLine(env.tc.protocBinary, Install.ProtoCArgs(env.tc, dir, env.tc.korpcPath, NestedParam(kind, stuff, t), files)) ]
  }

  /** `NestedLines` as the function of a target that `Chunks` takes. */
  function NestedLinesOf(env: Env, kind: string, stuff: Parameter.Stuff, files: seq<string>): Target -> seq<string> {
    t => NestedLines(env, kind, stuff, files, t)
  }

  /** A response of the single file `korpc.go`: the lines joined by newlines. */
  function MetaResponse(lines: seq<string>): Response {
    Response(None, [File("korpc.go", Text(JoinWith(lines, "\n")))])
  }

  /** The response of the meta modes of the entrypoint and methods plugins: the package
      clause of `kind`, then two lines for every method to generate, in scan order. */
  function MetaOutput(env: Env, kind: string, stuff: Parameter.Stuff, req: Request): Response {
    MetaResponse(["package " + kind] + Chunks(NestedLinesOf(env, kind, stuff, ProtoPaths(stuff, req.fileToGenerate)), Targets(req)))
  }

  /** `doMeta` of the entrypoint and methods plugins, which differ only in `kind`: the
      package clause, then two lines for every method to generate, in scan order. The loop
      over the services of a file and the loop over the methods of a service are the
      methods `NestedMetaFile` and `NestedMetaService`. */
  method NestedMeta(env: Env, kind: string, stuff: Parameter.Stuff, req: Request) returns (resp: Response)
    ensures resp == MetaOutput(env, kind, stuff, req)
  {
    var codegen := GenerateSet(req);
    var files := ProtoFiles(stuff, req);
    var cmds := ["package " + kind];
    var i := 0;
    while i < |req.protoFiles|
      invariant i <= |req.protoFiles|
      invariant Emitted(["package " + kind], NestedLinesOf(env, kind, stuff, files), FileTargets(req.protoFiles[..i], GenSet(req)), cmds)
    {
      VisitFile(req, i);
      if req.protoFiles[i].name in codegen {
        cmds := NestedMetaFile(env, kind, stuff, files, req, i, cmds);
      }
      i := i + 1;
    }
    VisitAll(req);
    resp := Response(None, [File("korpc.go", Text(JoinWith(cmds, "\n")))]);
  }

  method NestedMetaFile(env: Env, kind: string, stuff: Parameter.Stuff, files: seq<string>, req: Request, i: nat, cmds0: seq<string>)
    returns (cmds: seq<string>)
    requires i < |req.protoFiles| && req.protoFiles[i].name in GenSet(req)
    requires Emitted(["package " + kind], NestedLinesOf(env, kind, stuff, files), FileTargets(req.protoFiles[..i], GenSet(req)), cmds0)
    ensures Emitted(["package " + kind], NestedLinesOf(env, kind, stuff, files), FileTargets(req.protoFiles[..i + 1], GenSet(req)), cmds)
  {
    var fd := req.protoFiles[i];
    VisitFile(req, i);
    cmds := cmds0;
    var j := 0;
    while j < |fd.services|
      invariant j <= |fd.services|
      invariant Emitted(["package " + kind], NestedLinesOf(env, kind, stuff, files), VisitedServices(req, i, j), cmds)
    {
      cmds := NestedMetaService(env, kind, stuff, files, req, i, j, cmds);
      j := j + 1;
    }
  }

  method NestedMetaService(env: Env, kind: string, stuff: Parameter.Stuff, files: seq<string>, req: Request, i: nat, j: nat, cmds0: seq<string>)
    returns (cmds: seq<string>)
    requires i < |req.protoFiles| && j < |req.protoFiles[i].services|
    requires Emitted(["package " + kind], NestedLinesOf(env, kind, stuff, files), VisitedServices(req, i, j), cmds0)
    ensures Emitted(["package " + kind], NestedLinesOf(env, kind, stuff, files), VisitedServices(req, i, j + 1), cmds)
  {
    var fd := req.protoFiles[i];
    var sd := fd.services[j];
    var f := NestedLinesOf(env, kind, stuff, files);
    VisitService(req, i, j);
    cmds := cmds0;
    var k := 0;
    while k < |sd.methods|
      invariant k <= |sd.methods|
      invariant Emitted(["package " + kind], f, Visited(req, i, j, k), cmds)
    {
      cmds := NestedMetaMethod(env, kind, stuff, files, req, i, j, k, cmds);
      k := k + 1;
    }
  }

  /** One turn of the loop over the methods of a service: the lines of method `k`. */
  method NestedMetaMethod(env: Env, kind: string, stuff: Parameter.Stuff, files: seq<string>, req: Request, i: nat, j: nat, k: nat, cmds0: seq<string>)
    returns (cmds: seq<string>)
    requires i < |req.protoFiles| && j < |req.protoFiles[i].services| && k < |req.protoFiles[i].services[j].methods|
    requires Emitted(["package " + kind], NestedLinesOf(env, kind, stuff, files), Visited(req, i, j, k), cmds0)
    ensures Emitted(["package " + kind], NestedLinesOf(env, kind, stuff, files), Visited(req, i, j, k + 1), cmds)
  {
    var fd := req.protoFiles[i];
    var sd := fd.services[j];
    var md := sd.methods[k];
    var lines := NestedMethodLines(env, kind, stuff, files, Target(fd, sd, md));
    ChunksVisit(["package " + kind], NestedLinesOf(env, kind, stuff, files), req, i, j, k, cmds0, lines);
    cmds := cmds0 + lines;
  }

  /** The body of the innermost loop of the meta modes: the method's directory, the
      protoc command that generates into it, and the two lines that run them. */
  method NestedMethodLines(env: Env, kind: string, stuff: Parameter.Stuff, files: seq<string>, t: Target)
    returns (lines: seq<string>)
    ensures lines == NestedLinesOf(env, kind, stuff, files)(t)
  {
    var dir := Paths.Join([Lower(t.service.name), Lower(t.rpc.name)]);
    var binary, args := Install.ProtoCCmd(env.tc, dir, env.tc.korpcPath,
      Parameter.Stuff(kind, stuff.base, stuff.genDir, stuff.methodsDir, t.service.name, t.rpc.name,
        Paths.Join([stuff.nestedDirectory, dir]), stuff.domain, stuff.namespace),
      files);
    lines := [MkdirLine(dir), GenerateLine(binary, args)];
  }

  /** Line `0` of a meta file is the package clause; target `n` of the scan owns lines
      `2n + 1`, the `mkdir` of its directory, and `2n + 2`, the protoc command into it. */
  lemma NestedMetaLine(env: Env, kind: string, stuff: Parameter.Stuff, files: seq<string>, ts: seq<Target>, n: nat)
    requires n < |ts|
    ensures var lines := ["package " + kind] + Chunks(NestedLinesOf(env, kind, stuff, files), ts);
      && |lines| == 1 + 2 * |ts|
      && lines[0] == "package " + kind
      && lines[2 * n + 1] == MkdirLine(MethodDir(ts[n]))
      && lines[2 * n + 2] == GenerateLine(env.tc.protocBinary,
           Install.ProtoCArgs(env.tc, MethodDir(ts[n]), env.tc.korpcPath, NestedParam(kind, stuff, ts[n]), files))
  {
    NestedLinesPair(env, kind, stuff, files);
    ChunksPairAt(["package " + kind], NestedLinesOf(env, kind, stuff, files), ts, n);
  }

  lemma NestedLinesPair(env: Env, kind: string, stuff: Parameter.Stuff, files: seq<string>)
    ensures forall t :: |NestedLinesOf(env, kind, stuff, files)(t)| == 2
  {
  }

  /** The sub-invocation for one method: output into the method's directory, the `_opt`
      value decodes to the nested parameter, and the protos come last, unchanged. */
  lemma NestedInvocation(env: Env, kind: string, stuff: Parameter.Stuff, files: seq<string>, t: Target)
    ensures var args := Install.ProtoCArgs(env.tc, MethodDir(t), env.tc.korpcPath, NestedParam(kind, stuff, t), files);
      && |args| == 6 + |files|
      && args[4] == "--" + kind + "_out=" + MethodDir(t)
      && args[5][..|kind| + 7] == "--" + kind + "_opt="
      && Parameter.From(args[5][|kind| + 7..]) == Ok(NestedParam(kind, stuff, t))
      && args[6..] == files
  {
    Install.ProtoCArgsShape(env.tc, MethodDir(t), env.tc.korpcPath, NestedParam(kind, stuff, t), files);
  }

  /** Lower-casing keeps a component free of dots and slashes. */
  lemma LowerDotFree(c: string)
    requires Install.DotFree(c)
    ensures Install.DotFree(Lower(c))
  {
    forall i | 0 <= i < |c| ensures Lower(c)[i] != '/' && Lower(c)[i] != '.' {
      assert c[i] != '/' && c[i] != '.';
    }
  }

  /** With a nested directory of dot-free components `cs` and dot-free service and method
      names, the method's directory is `service/method` lower-cased, and the include path
      of its sub-invocation climbs from there back to the root of the protos: one `..` per
      component of `cs`, or `.` when there is none. */
  lemma NestedToRoot(env: Env, kind: string, stuff: Parameter.Stuff, files: seq<string>, t: Target, cs: seq<string>)
    requires forall i :: 0 <= i < |cs| ==> Install.DotFree(cs[i])
    requires stuff.nestedDirectory == JoinWith(cs, "/")
    requires Install.DotFree(t.service.name) && Install.DotFree(t.rpc.name)
    ensures MethodDir(t) == Lower(t.service.name) + "/" + Lower(t.rpc.name)
    ensures Install.ProtoCArgs(env.tc, MethodDir(t), env.tc.korpcPath, NestedParam(kind, stuff, t), files)[2]
      == "-I" + if cs == [] then "." else JoinWith(Paths.DotDots(|cs|), "/")
  {
    var os := MethodDirComponents(t);
    NestedDirectoryOf(kind, stuff, t, cs, os);
    Install.ToRootNested(cs, os, NestedParam(kind, stuff, t));
    Install.ProtoCArgsRoot(env.tc, MethodDir(t), env.tc.korpcPath, NestedParam(kind, stuff, t), files);
  }

  /** The method's directory, as a path of two dot-free components. */
  lemma MethodDirComponents(t: Target) returns (os: seq<string>)
    requires Install.DotFree(t.service.name) && Install.DotFree(t.rpc.name)
    ensures os == [Lower(t.service.name), Lower(t.rpc.name)]
    ensures forall i :: 0 <= i < |os| ==> Install.DotFree(os[i])
    ensures MethodDir(t) == JoinWith(os, "/") == Lower(t.service.name) + "/" + Lower(t.rpc.name)
  {
    os := [Lower(t.service.name), Lower(t.rpc.name)];
    LowerDotFree(t.service.name);
    LowerDotFree(t.rpc.name);
    Install.DotFreeSimple(os);
    Paths.JoinSimple([os[0]], [os[1]]);
    assert [os[0]] + [os[1]] == os;
  }

  /** The nested directory of the sub-invocation is `cs` followed by the method's directory. */
  lemma NestedDirectoryOf(kind: string, stuff: Parameter.Stuff, t: Target, cs: seq<string>, os: seq<string>)
    requires forall i :: 0 <= i < |cs| ==> Install.DotFree(cs[i])
    requires forall i :: 0 <= i < |os| ==> Install.DotFree(os[i])
    requires stuff.nestedDirectory == JoinWith(cs, "/") && MethodDir(t) == JoinWith(os, "/")
    ensures NestedParam(kind, stuff, t).nestedDirectory == JoinWith(cs + os, "/")
  {
    Install.DotFreeSimple(cs);
    Install.DotFreeSimple(os);
    Paths.JoinSimple(cs, os);
  }

  // ---------------------------------------------------------------------------
  // Output built target by target

  /** What `f` makes of each target of `ts`, one target after another. */
  function Chunks<U>(f: Target -> seq<U>, ts: seq<Target>): seq<U> {
    if ts == [] then [] else Chunks(f, ts[..|ts| - 1]) + f(ts[|ts| - 1])
  }

  lemma ChunksStep<U>(f: Target -> seq<U>, ts: seq<Target>, t: Target)
    ensures Chunks(f, ts + [t]) == Chunks(f, ts) + f(t)
  {
    assert (ts + [t])[..|ts|] == ts;
  }

  /** `acc` holds `head` followed by what `f` makes of the targets `ts`. */
  ghost predicate Emitted<U>(head: seq<U>, f: Target -> seq<U>, ts: seq<Target>, acc: seq<U>) {
    acc == head + Chunks(f, ts)
  }

  /** The loop step of a scan that appends what `f` makes of each method it visits. */
  lemma ChunksVisit<U>(head: seq<U>, f: Target -> seq<U>, req: Request, i: nat, j: nat, k: nat, acc: seq<U>, items: seq<U>)
    requires i < |req.protoFiles| && j < |req.protoFiles[i].services|
    requires k < |req.protoFiles[i].services[j].methods|
    requires Emitted(head, f, Visited(req, i, j, k), acc)
    requires items == f(Target(req.protoFiles[i], req.protoFiles[i].services[j], req.protoFiles[i].services[j].methods[k]))
    ensures Emitted(head, f, Visited(req, i, j, k + 1), acc + items)
  {
    var fd := req.protoFiles[i];
    var sd := fd.services[j];
    VisitMethod(req, i, j, k);
    ChunksStep(f, Visited(req, i, j, k), Target(fd, sd, sd.methods[k]));
    Assoc(head, Chunks(f, Visited(req, i, j, k)), items);
  }

  /** When every target makes one item, item `n` is that of target `n`. */
  lemma {:induction false} ChunksSingle<U>(f: Target -> seq<U>, ts: seq<Target>)
    requires forall t :: |f(t)| == 1
    ensures |Chunks(f, ts)| == |ts|
    ensures forall n :: 0 <= n < |ts| ==> Chunks(f, ts)[n] == f(ts[n])[0]
    decreases |ts|
  {
    if ts != [] {
      ChunksSingle(f, ts[..|ts| - 1]);
    }
  }

  /** Items `2n` and `2n + 1` after a header are those of target `n`. */
  lemma ChunksPairAt<U>(head: seq<U>, f: Target -> seq<U>, ts: seq<Target>, n: nat)
    requires forall t :: |f(t)| == 2
    requires n < |ts|
    ensures |head + Chunks(f, ts)| == |head| + 2 * |ts|
    ensures (head + Chunks(f, ts))[|head| + 2 * n] == f(ts[n])[0]
    ensures (head + Chunks(f, ts))[|head| + 2 * n + 1] == f(ts[n])[1]
  {
    ChunksPair(f, ts);
  }

  /** When every target makes two items, items `2n` and `2n + 1` are those of target `n`. */
  lemma {:induction false} ChunksPair<U>(f: Target -> seq<U>, ts: seq<Target>)
    requires forall t :: |f(t)| == 2
    ensures |Chunks(f, ts)| == 2 * |ts|
    ensures forall n :: 0 <= n < |ts| ==> Chunks(f, ts)[2 * n] == f(ts[n])[0] && Chunks(f, ts)[2 * n + 1] == f(ts[n])[1]
    decreases |ts|
  {
    if ts != [] {
      ChunksPair(f, ts[..|ts| - 1]);
    }
  }
}
