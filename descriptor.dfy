/** What protoc hands a plugin and what it takes back (`plugin_go.CodeGeneratorRequest` and
    `CodeGeneratorResponse`, already decoded), the parts of the proto descriptors the
    backends read, and the order in which every backend visits the methods to generate. */
module Descriptor {
  import opened Wrappers
  import opened Text

  // ---------------------------------------------------------------------------
  // Descriptors

  datatype EnvVar = EnvVar(name: string, value: string)

  datatype Resources = Resources(limits: map<string, string>, requests: map<string, string>)

  /** The `korpc.Options` method extension. */
  datatype KorpcOptions = KorpcOptions(
    serviceAccount: string,
    containerConcurrency: int,
    timeoutSeconds: int,
    env: seq<EnvVar>,
    resources: Option<Resources>)

  const ZeroOptions := KorpcOptions("", 0, 0, [], None)

  /** `korpc` is the extension value when `proto.GetExtension` finds one. */
  datatype MethodDesc = MethodDesc(
    name: string,
    inputType: string,
    outputType: string,
    clientStreaming: bool,
    serverStreaming: bool,
    korpc: Option<KorpcOptions>)

  datatype ServiceDesc = ServiceDesc(name: string, methods: seq<MethodDesc>)

  datatype FileDesc = FileDesc(name: string, package: string, services: seq<ServiceDesc>)

  datatype Request = Request(fileToGenerate: seq<string>, parameter: string, protoFiles: seq<FileDesc>)

  // ---------------------------------------------------------------------------
  // Output

  datatype Shape = Unary | StreamIn | StreamOut | StreamInOut

  /** The Go templates whose text is not modelled, named by the variables the backends pass
      to `execToString`. */
  datatype Template =
    | EntrypointMain               // entrypoint `tmpl`
    | EntrypointMethod(s: Shape)   // `streamInOutMethod`, `streamInMethod`, `streamOutMethod`
    | ScaffoldMain                 // scaffold `tmpl`
    | ScaffoldMethod(s: Shape)     // `UnaryMethod`, `StreamInOutMethod`, `StreamInMethod`, `StreamOutMethod`
    | ScaffoldError(s: Shape)      // `UnaryError`, `StreamInOutError`, `StreamInError`, `StreamOutError`

  /** Generated text: literal, a list, or a template rendered with named values. */
  datatype Content =
    | Text(text: string)
    | Items(items: seq<Content>)
    | Render(template: Template, fields: map<string, Content>)

  datatype File = File(name: string, content: Content)

  datatype Response = Response(error: Option<string>, files: seq<File>)

  // ---------------------------------------------------------------------------
  // The methods to generate, in the order the nested loops visit them

  datatype Target = Target(file: FileDesc, service: ServiceDesc, rpc: MethodDesc)

  /** The `codegen` set: the names in `FileToGenerate`. */
  function GenSet(req: Request): (r: set<string>)
    ensures forall f :: f in r <==> f in req.fileToGenerate
  {
    set f | f in req.fileToGenerate
  }

  function MethodTargets(fd: FileDesc, sd: ServiceDesc, ms: seq<MethodDesc>): seq<Target> {
    if ms == [] then [] else MethodTargets(fd, sd, ms[..|ms| - 1]) + [Target(fd, sd, ms[|ms| - 1])]
  }

  /** A service contributes one target per method, in declaration order. */
  lemma {:induction false} MethodTargetsIndex(fd: FileDesc, sd: ServiceDesc, ms: seq<MethodDesc>)
    ensures |MethodTargets(fd, sd, ms)| == |ms|
    ensures forall k :: 0 <= k < |ms| ==> MethodTargets(fd, sd, ms)[k] == Target(fd, sd, ms[k])
    decreases |ms|
  {
    if ms != [] {
      MethodTargetsIndex(fd, sd, ms[..|ms| - 1]);
    }
  }

  function ServiceTargets(fd: FileDesc, ss: seq<ServiceDesc>): seq<Target> {
    if ss == [] then []
    else
      var sd := ss[|ss| - 1];
      ServiceTargets(fd, ss[..|ss| - 1]) + MethodTargets(fd, sd, sd.methods)
  }

  /** What one file contributes: all its methods when it is to be generated, nothing otherwise. */
  function FileContribution(fd: FileDesc, gen: set<string>): seq<Target> {
    if fd.name in gen then ServiceTargets(fd, fd.services) else []
  }

  function FileTargets(files: seq<FileDesc>, gen: set<string>): seq<Target> {
    if files == [] then []
    else FileTargets(files[..|files| - 1], gen) + FileContribution(files[|files| - 1], gen)
  }

  /** Every (file, service, methodName) the backends scan, in scan order. */
  function Targets(req: Request): seq<Target> {
    FileTargets(req.protoFiles, GenSet(req))
  }

  // ---------------------------------------------------------------------------
  // Loop steps

  lemma MethodStep(fd: FileDesc, sd: ServiceDesc, ms: seq<MethodDesc>, k: nat)
    requires k < |ms|
    ensures MethodTargets(fd, sd, ms[..k + 1]) == MethodTargets(fd, sd, ms[..k]) + [Target(fd, sd, ms[k])]
  {
    assert ms[..k + 1][..k] == ms[..k];
  }

  lemma ServiceStep(fd: FileDesc, ss: seq<ServiceDesc>, j: nat)
    requires j < |ss|
    ensures ServiceTargets(fd, ss[..j + 1]) == ServiceTargets(fd, ss[..j]) + MethodTargets(fd, ss[j], ss[j].methods)
  {
    assert ss[..j + 1][..j] == ss[..j];
  }

  lemma FileStep(files: seq<FileDesc>, gen: set<string>, i: nat)
    requires i < |files|
    ensures FileTargets(files[..i + 1], gen) == FileTargets(files[..i], gen) + FileContribution(files[i], gen)
  {
    assert files[..i + 1][..i] == files[..i];
  }

  // ---------------------------------------------------------------------------
  // The state of the nested loops

  /** What the loops have visited when they stand at method `k` of service `j` of file `i`. */
  function Visited(req: Request, i: nat, j: nat, k: nat): seq<Target>
    requires i < |req.protoFiles| && j < |req.protoFiles[i].services|
    requires k <= |req.protoFiles[i].services[j].methods|
  {
    var fd := req.protoFiles[i];
    var sd := fd.services[j];
    FileTargets(req.protoFiles[..i], GenSet(req)) + ServiceTargets(fd, fd.services[..j]) + MethodTargets(fd, sd, sd.methods[..k])
  }

  /** What the loops have visited when they stand at service `j` of file `i`. */
  function VisitedServices(req: Request, i: nat, j: nat): seq<Target>
    requires i < |req.protoFiles| && j <= |req.protoFiles[i].services|
  {
    var fd := req.protoFiles[i];
    FileTargets(req.protoFiles[..i], GenSet(req)) + ServiceTargets(fd, fd.services[..j])
  }

  lemma EmptyRight<T>(x: seq<T>, y: seq<T>)
    requires y == []
    ensures x + y == x
  {
  }

  /** Entering a file's service loop, and leaving it. */
  lemma VisitFile(req: Request, i: nat)
    requires i < |req.protoFiles|
    ensures VisitedServices(req, i, 0) == FileTargets(req.protoFiles[..i], GenSet(req))
    ensures req.protoFiles[i].name in GenSet(req) ==>
      VisitedServices(req, i, |req.protoFiles[i].services|) == FileTargets(req.protoFiles[..i + 1], GenSet(req))
    ensures req.protoFiles[i].name !in GenSet(req) ==>
      FileTargets(req.protoFiles[..i], GenSet(req)) == FileTargets(req.protoFiles[..i + 1], GenSet(req))
  {
    var fd := req.protoFiles[i];
    FileStep(req.protoFiles, GenSet(req), i);
    WholePrefix(fd.services);
    EmptyRight(FileTargets(req.protoFiles[..i], GenSet(req)), ServiceTargets(fd, fd.services[..0]));
    if fd.name !in GenSet(req) {
      EmptyRight(FileTargets(req.protoFiles[..i], GenSet(req)), FileContribution(fd, GenSet(req)));
    }
  }

  /** Entering a service's method loop, and leaving it. */
  lemma VisitService(req: Request, i: nat, j: nat)
    requires i < |req.protoFiles| && j < |req.protoFiles[i].services|
    ensures Visited(req, i, j, 0) == VisitedServices(req, i, j)
    ensures Visited(req, i, j, |req.protoFiles[i].services[j].methods|) == VisitedServices(req, i, j + 1)
  {
    var fd := req.protoFiles[i];
    var sd := fd.services[j];
    var a := FileTargets(req.protoFiles[..i], GenSet(req));
    EmptyRight(a + ServiceTargets(fd, fd.services[..j]), MethodTargets(fd, sd, sd.methods[..0]));
    WholePrefix(sd.methods);
    ServiceStep(fd, fd.services, j);
    Assoc(a, ServiceTargets(fd, fd.services[..j]), MethodTargets(fd, sd, sd.methods));
  }

  /** One method further. */
  lemma VisitMethod(req: Request, i: nat, j: nat, k: nat)
    requires i < |req.protoFiles| && j < |req.protoFiles[i].services|
    requires k < |req.protoFiles[i].services[j].methods|
    ensures var fd := req.protoFiles[i];
      var sd := fd.services[j];
      Visited(req, i, j, k + 1) == Visited(req, i, j, k) + [Target(fd, sd, sd.methods[k])]
  {
    var fd := req.protoFiles[i];
    var sd := fd.services[j];
    var ab := FileTargets(req.protoFiles[..i], GenSet(req)) + ServiceTargets(fd, fd.services[..j]);
    MethodStep(fd, sd, sd.methods, k);
    Assoc(ab, MethodTargets(fd, sd, sd.methods[..k]), [Target(fd, sd, sd.methods[k])]);
  }

  /** After the last file the loops have visited every target. */
  lemma VisitAll(req: Request)
    ensures FileTargets(req.protoFiles[..|req.protoFiles|], GenSet(req)) == Targets(req)
  {
    WholePrefix(req.protoFiles);
  }

  // ---------------------------------------------------------------------------
  // Structure of the scan

  lemma {:induction false} ServiceAppend(fd: FileDesc, a: seq<ServiceDesc>, b: seq<ServiceDesc>)
    ensures ServiceTargets(fd, a + b) == ServiceTargets(fd, a) + ServiceTargets(fd, b)
    decreases |b|
  {
    if b == [] {
      assert a + b == a;
    } else {
      var b' := b[..|b| - 1];
      assert (a + b)[..|a + b| - 1] == a + b';
      ServiceAppend(fd, a, b');
    }
  }

  lemma {:induction false} FileAppend(a: seq<FileDesc>, b: seq<FileDesc>, gen: set<string>)
    ensures FileTargets(a + b, gen) == FileTargets(a, gen) + FileTargets(b, gen)
    decreases |b|
  {
    if b == [] {
      assert a + b == a;
    } else {
      FileAppend(a, b[..|b| - 1], gen);
      FileAppendStep(a, b, gen);
    }
  }

  lemma FileLast(files: seq<FileDesc>, gen: set<string>)
    requires files != []
    ensures FileTargets(files, gen) == FileTargets(files[..|files| - 1], gen) + FileContribution(files[|files| - 1], gen)
  {
  }

  lemma FileAppendStep(a: seq<FileDesc>, b: seq<FileDesc>, gen: set<string>)
    requires b != []
    requires FileTargets(a + b[..|b| - 1], gen) == FileTargets(a, gen) + FileTargets(b[..|b| - 1], gen)
    ensures FileTargets(a + b, gen) == FileTargets(a, gen) + FileTargets(b, gen)
  {
    var n := |b| - 1;
    var ab := a + b;
    InitAppend(a, b);
    FileLast(ab, gen);
    FileLast(b, gen);
    Assoc(FileTargets(a, gen), FileTargets(b[..n], gen), FileContribution(b[n], gen));
  }

  lemma InitAppend<T>(a: seq<T>, b: seq<T>)
    requires b != []
    ensures (a + b)[..|a + b| - 1] == a + b[..|b| - 1] && (a + b)[|a + b| - 1] == b[|b| - 1]
  {
  }

  lemma Assoc<T>(x: seq<T>, y: seq<T>, z: seq<T>)
    ensures (x + y) + z == x + (y + z)
  {
  }

  /** Files outside `FileToGenerate` contribute no methods: dropping them changes nothing. */
  lemma SkipUngenerated(a: seq<FileDesc>, fd: FileDesc, b: seq<FileDesc>, gen: set<string>)
    requires fd.name !in gen
    ensures FileTargets(a + [fd] + b, gen) == FileTargets(a + b, gen)
  {
    FileAppend(a + [fd], b, gen);
    FileAppend(a, [fd], gen);
    FileAppend(a, b, gen);
    SingleFile(fd, gen);
  }

  lemma SingleFile(fd: FileDesc, gen: set<string>)
    ensures FileTargets([fd], gen) == FileContribution(fd, gen)
  {
    assert [fd][..0] == [];
  }

  lemma {:induction false} MethodTargetsMember(fd: FileDesc, sd: ServiceDesc, ms: seq<MethodDesc>, t: Target)
    ensures t in MethodTargets(fd, sd, ms) <==> t.file == fd && t.service == sd && t.rpc in ms
  {
    var r := MethodTargets(fd, sd, ms);
    MethodTargetsIndex(fd, sd, ms);
    if t.file == fd && t.service == sd && t.rpc in ms {
      var k :| 0 <= k < |ms| && ms[k] == t.rpc;
      assert r[k] == t;
    }
  }

  lemma {:induction false} ServiceTargetsMember(fd: FileDesc, ss: seq<ServiceDesc>, t: Target)
    ensures t in ServiceTargets(fd, ss) <==> t.file == fd && t.service in ss && t.rpc in t.service.methods
    decreases |ss|
  {
    if ss != [] {
      var init, sd := ss[..|ss| - 1], ss[|ss| - 1];
      ServiceTargetsMember(fd, init, t);
      MethodTargetsMember(fd, sd, sd.methods, t);
      assert ss == init + [sd];
      assert t.service in ss <==> t.service in init || t.service == sd;
    }
  }

  /** A target is scanned exactly when its file is to be generated and its service and
      method belong to that file. */
  lemma {:induction false} FileTargetsMember(files: seq<FileDesc>, gen: set<string>, t: Target)
    ensures t in FileTargets(files, gen) <==>
      t.file in files && t.file.name in gen && t.service in t.file.services && t.rpc in t.service.methods
    decreases |files|
  {
    if files != [] {
      var init, fd := files[..|files| - 1], files[|files| - 1];
      FileTargetsMember(init, gen, t);
      if fd.name in gen {
        ServiceTargetsMember(fd, fd.services, t);
      }
      assert files == init + [fd];
      assert t.file in files <==> t.file in init || t.file == fd;
    }
  }

  lemma TargetsMember(req: Request, t: Target)
    ensures t in Targets(req) <==>
      t.file in req.protoFiles && t.file.name in req.fileToGenerate
      && t.service in t.file.services && t.rpc in t.service.methods
  {
    FileTargetsMember(req.protoFiles, GenSet(req), t);
  }

  // ---------------------------------------------------------------------------
  // Where an early return stops

  lemma PrefixCompose<T>(x: seq<T>, y: seq<T>, y': seq<T>, z: seq<T>)
    requires x + y <= z && y' <= y
    ensures x + y' <= z
  {
    assert (x + y')[..] == (x + y)[..|x + y'|];
  }

  lemma MethodPrefix(fd: FileDesc, sd: ServiceDesc, ms: seq<MethodDesc>, k: nat)
    requires k < |ms|
    ensures MethodTargets(fd, sd, ms[..k]) + [Target(fd, sd, ms[k])] <= MethodTargets(fd, sd, ms)
  {
    MethodStep(fd, sd, ms, k);
    MethodTargetsIndex(fd, sd, ms);
    MethodTargetsIndex(fd, sd, ms[..k + 1]);
    var p := MethodTargets(fd, sd, ms[..k + 1]);
    assert p == MethodTargets(fd, sd, ms)[..k + 1];
  }

  lemma ServicePrefix(fd: FileDesc, ss: seq<ServiceDesc>, j: nat)
    requires j < |ss|
    ensures ServiceTargets(fd, ss[..j]) + MethodTargets(fd, ss[j], ss[j].methods) <= ServiceTargets(fd, ss)
  {
    ServiceStep(fd, ss, j);
    ServiceAppend(fd, ss[..j + 1], ss[j + 1..]);
    assert ss[..j + 1] + ss[j + 1..] == ss;
  }

  lemma FilePrefix(files: seq<FileDesc>, gen: set<string>, i: nat)
    requires i < |files| && files[i].name in gen
    ensures FileTargets(files[..i], gen) + ServiceTargets(files[i], files[i].services) <= FileTargets(files, gen)
  {
    FileStep(files, gen, i);
    FileAppend(files[..i + 1], files[i + 1..], gen);
    assert files[..i + 1] + files[i + 1..] == files;
  }

  /** What the nested loops have visited when they stand at method `k` of service `j` of file `i`,
      followed by that method, is a prefix of the whole scan. */
  lemma ScanPrefix(req: Request, i: nat, j: nat, k: nat)
    requires i < |req.protoFiles| && req.protoFiles[i].name in GenSet(req)
    requires j < |req.protoFiles[i].services| && k < |req.protoFiles[i].services[j].methods|
    ensures var fd := req.protoFiles[i];
      var sd := fd.services[j];
      FileTargets(req.protoFiles[..i], GenSet(req)) + ServiceTargets(fd, fd.services[..j])
        + MethodTargets(fd, sd, sd.methods[..k]) + [Target(fd, sd, sd.methods[k])] <= Targets(req)
  {
    var files, gen := req.protoFiles, GenSet(req);
    var fd := files[i];
    var a := FileTargets(files[..i], gen);
    var bc := ServiceTargets(fd, fd.services[..j]) + MethodTargets(fd, fd.services[j], fd.services[j].methods[..k])
      + [Target(fd, fd.services[j], fd.services[j].methods[k])];
    FilePrefix(files, gen, i);
    ServiceScanPrefix(fd, fd.services, j, k);
    PrefixCompose(a, ServiceTargets(fd, fd.services), bc, Targets(req));
    assert a + bc == a + ServiceTargets(fd, fd.services[..j])
      + MethodTargets(fd, fd.services[j], fd.services[j].methods[..k])
      + [Target(fd, fd.services[j], fd.services[j].methods[k])];
  }

  lemma ServiceScanPrefix(fd: FileDesc, ss: seq<ServiceDesc>, j: nat, k: nat)
    requires j < |ss| && k < |ss[j].methods|
    ensures ServiceTargets(fd, ss[..j]) + MethodTargets(fd, ss[j], ss[j].methods[..k])
      + [Target(fd, ss[j], ss[j].methods[k])] <= ServiceTargets(fd, ss)
  {
    var sd := ss[j];
    var b := ServiceTargets(fd, ss[..j]);
    var c := MethodTargets(fd, sd, sd.methods[..k]) + [Target(fd, sd, sd.methods[k])];
    ServicePrefix(fd, ss, j);
    MethodPrefix(fd, sd, sd.methods, k);
    PrefixCompose(b, MethodTargets(fd, sd, sd.methods), c, ServiceTargets(fd, ss));
    assert b + c == b + MethodTargets(fd, sd, sd.methods[..k]) + [Target(fd, sd, sd.methods[k])];
  }

  lemma WholePrefix<T>(s: seq<T>)
    ensures s[..|s|] == s
  {
  }

  // ---------------------------------------------------------------------------
  // Searching the scan for `Service.Method`

  predicate Matches(t: Target, service: string, methodName: string) {
    t.service.name == service && t.rpc.name == methodName
  }

  /** The first match, as a loop that returns as soon as it finds one sees it. */
  function FindFirst(ts: seq<Target>, service: string, methodName: string): Option<Target> {
    if ts == [] then None
    else if Matches(ts[0], service, methodName) then Some(ts[0])
    else FindFirst(ts[1..], service, methodName)
  }

  /** The last match, as a loop that overwrites its result on every match sees it. */
  function FindLast(ts: seq<Target>, service: string, methodName: string): Option<Target> {
    if ts == [] then None
    else if Matches(ts[|ts| - 1], service, methodName) then Some(ts[|ts| - 1])
    else FindLast(ts[..|ts| - 1], service, methodName)
  }

  /** `FindFirst` finds a match with no match before it, and finds nothing only when nothing matches. */
  lemma {:induction false} FindFirstSpec(ts: seq<Target>, service: string, methodName: string)
    ensures FindFirst(ts, service, methodName).None? <==> forall t :: t in ts ==> !Matches(t, service, methodName)
    ensures FindFirst(ts, service, methodName).Some? ==>
      exists i :: 0 <= i < |ts| && ts[i] == FindFirst(ts, service, methodName).value
        && Matches(ts[i], service, methodName)
        && forall j :: 0 <= j < i ==> !Matches(ts[j], service, methodName)
  {
    if ts != [] && !Matches(ts[0], service, methodName) {
      FindFirstSpec(ts[1..], service, methodName);
      assert forall t :: t in ts ==> t == ts[0] || t in ts[1..];
      if FindFirst(ts[1..], service, methodName).Some? {
        var i :| 0 <= i < |ts[1..]| && ts[1..][i] == FindFirst(ts[1..], service, methodName).value
          && Matches(ts[1..][i], service, methodName)
          && forall j :: 0 <= j < i ==> !Matches(ts[1..][j], service, methodName);
        assert ts[i + 1] == ts[1..][i];
        forall j | 0 <= j < i + 1 ensures !Matches(ts[j], service, methodName) {
          if j > 0 { assert ts[j] == ts[1..][j - 1]; }
        }
      }
    } else if ts != [] {
      assert ts[0] in ts;
    }
  }

  /** `FindLast` finds a match with no match after it, and finds nothing only when nothing matches. */
  lemma {:induction false} FindLastSpec(ts: seq<Target>, service: string, methodName: string)
    ensures FindLast(ts, service, methodName).None? <==> forall t :: t in ts ==> !Matches(t, service, methodName)
    ensures FindLast(ts, service, methodName).Some? ==>
      exists i :: 0 <= i < |ts| && ts[i] == FindLast(ts, service, methodName).value
        && Matches(ts[i], service, methodName)
        && forall j :: i < j < |ts| ==> !Matches(ts[j], service, methodName)
  {
    if ts != [] && !Matches(ts[|ts| - 1], service, methodName) {
      var init := ts[..|ts| - 1];
      FindLastSpec(init, service, methodName);
      assert ts == init + [ts[|ts| - 1]];
      assert forall t :: t in ts ==> t == ts[|ts| - 1] || t in init;
      if FindLast(init, service, methodName).Some? {
        var i :| 0 <= i < |init| && init[i] == FindLast(init, service, methodName).value
          && Matches(init[i], service, methodName)
          && forall j :: i < j < |init| ==> !Matches(init[j], service, methodName);
        assert ts[i] == init[i];
        forall j | i < j < |ts| ensures !Matches(ts[j], service, methodName) {
          if j < |init| { assert ts[j] == init[j]; }
        }
      }
    } else if ts != [] {
      assert ts[|ts| - 1] in ts;
    }
  }

  /** Target `n` matches and no target before it does. */
  predicate FirstMatchIndex(ts: seq<Target>, n: nat, service: string, methodName: string)
    requires n < |ts|
  {
    && Matches(ts[n], service, methodName)
    && forall m :: 0 <= m < n ==> !Matches(ts[m], service, methodName)
  }

  /** Where the first-match search found its result. */
  lemma FindFirstIndex(ts: seq<Target>, service: string, methodName: string) returns (n: nat)
    requires FindFirst(ts, service, methodName).Some?
    ensures n < |ts| && FirstMatchIndex(ts, n, service, methodName)
    ensures FindFirst(ts, service, methodName) == Some(ts[n])
  {
    FindFirstSpec(ts, service, methodName);
    n :| 0 <= n < |ts| && ts[n] == FindFirst(ts, service, methodName).value
      && Matches(ts[n], service, methodName)
      && forall j :: 0 <= j < n ==> !Matches(ts[j], service, methodName);
  }

  /** A match found right after a match-free prefix is the first match. */
  lemma {:induction false} FindFirstAt(p: seq<Target>, t: Target, ts: seq<Target>, service: string, methodName: string)
    requires p + [t] <= ts
    requires forall x :: x in p ==> !Matches(x, service, methodName)
    requires Matches(t, service, methodName)
    ensures FindFirst(ts, service, methodName) == Some(t)
    decreases |p|
  {
    if p == [] {
      assert ts[0] == t;
    } else {
      assert ts[0] == p[0] && p[0] in p;
      assert p[1..] + [t] <= ts[1..] by {
        assert (p + [t])[1..] == p[1..] + [t];
      }
      forall x | x in p[1..] ensures !Matches(x, service, methodName) {
        assert x in p;
      }
      FindFirstAt(p[1..], t, ts[1..], service, methodName);
    }
  }

  /** Some generated file declares a service `service` with a method `methodName`. */
  predicate Declared(req: Request, service: string, methodName: string) {
    exists fd, sd, md :: fd in req.protoFiles && sd in fd.services && md in sd.methods
      && fd.name in req.fileToGenerate && sd.name == service && md.name == methodName
  }

  lemma DeclaredTargets(req: Request, service: string, methodName: string)
    ensures Declared(req, service, methodName) <==> exists t :: t in Targets(req) && Matches(t, service, methodName)
  {
    if Declared(req, service, methodName) {
      var fd, sd, md :| fd in req.protoFiles && sd in fd.services && md in sd.methods
        && fd.name in req.fileToGenerate && sd.name == service && md.name == methodName;
      TargetsMember(req, Target(fd, sd, md));
    }
    if t :| t in Targets(req) && Matches(t, service, methodName) {
      TargetsMember(req, t);
    }
  }

  /** The first-match search finds nothing exactly when no generated file declares the method. */
  lemma FindFirstNone(req: Request, service: string, methodName: string)
    ensures FindFirst(Targets(req), service, methodName).None? <==> !Declared(req, service, methodName)
  {
    FindFirstSpec(Targets(req), service, methodName);
    DeclaredTargets(req, service, methodName);
  }

  /** The last-match search finds nothing exactly when no generated file declares the method. */
  lemma FindLastNone(req: Request, service: string, methodName: string)
    ensures FindLast(Targets(req), service, methodName).None? <==> !Declared(req, service, methodName)
  {
    FindLastSpec(Targets(req), service, methodName);
    DeclaredTargets(req, service, methodName);
  }

  lemma FindLastStep(ts: seq<Target>, t: Target, service: string, methodName: string)
    ensures FindLast(ts + [t], service, methodName) ==
      if Matches(t, service, methodName) then Some(t) else FindLast(ts, service, methodName)
  {
    assert (ts + [t])[..|ts|] == ts;
  }

  /** When `Service.Method` names one method only, the entrypoint's last-match search and
      the other backends' first-match search agree. */
  lemma FirstIsLast(ts: seq<Target>, service: string, methodName: string)
    requires forall a, b :: a in ts && b in ts && Matches(a, service, methodName) && Matches(b, service, methodName) ==> a == b
    ensures FindFirst(ts, service, methodName) == FindLast(ts, service, methodName)
  {
    FindFirstSpec(ts, service, methodName);
    FindLastSpec(ts, service, methodName);
    if FindFirst(ts, service, methodName).Some? {
      var i :| 0 <= i < |ts| && ts[i] == FindFirst(ts, service, methodName).value && Matches(ts[i], service, methodName);
      var n :| 0 <= n < |ts| && ts[n] == FindLast(ts, service, methodName).value && Matches(ts[n], service, methodName);
      assert ts[i] in ts && ts[n] in ts;
    }
  }

  // ---------------------------------------------------------------------------
  // Streaming shape

  /** The switch of `impl` and `unimpl`: both directions streaming first, then client, then server. */
  function ShapeOf(m: MethodDesc): Shape {
    if m.serverStreaming && m.clientStreaming then StreamInOut
    else if m.clientStreaming then StreamIn
    else if m.serverStreaming then StreamOut
    else Unary
  }

  lemma ShapeOfFlags(m: MethodDesc)
    ensures ShapeOf(m) == StreamInOut <==> m.clientStreaming && m.serverStreaming
    ensures ShapeOf(m) == StreamIn <==> m.clientStreaming && !m.serverStreaming
    ensures ShapeOf(m) == StreamOut <==> !m.clientStreaming && m.serverStreaming
    ensures ShapeOf(m) == Unary <==> !m.clientStreaming && !m.serverStreaming
  {
  }

  /** `extract` on a proto type name: the name without its package. */
  lemma ExtractExamples()
    ensures AfterLastDot(".pkg.Request") == "Request"
    ensures AfterLastDot("Plain") == "Plain"
  {
    AfterDot(".pkg.", "Request");
    assert ".pkg." + "Request" == ".pkg.Request";
    AfterDot("", "Plain");
    assert "" + "Plain" == "Plain";
  }

  /** `extract` keeps exactly what follows the last dot, and a dotless name whole. */
  lemma {:induction false} AfterDot(p: string, x: string)
    requires p == "" || p[|p| - 1] == '.'
    requires forall i :: 0 <= i < |x| ==> x[i] != '.'
    ensures AfterLastDot(p + x) == x
    decreases |x|
  {
    if x == "" {
      assert p + x == p;
    } else {
      var x' := x[..|x| - 1];
      AfterDot(p, x');
      var t := p + x;
      assert t[..|t| - 1] == p + x';
      AfterLastDotStep(t);
      assert x == x' + [x[|x| - 1]];
    }
  }

  lemma AfterLastDotStep(t: string)
    requires t != [] && t[|t| - 1] != '.'
    ensures AfterLastDot(t) == AfterLastDot(t[..|t| - 1]) + [t[|t| - 1]]
  {
  }

  /** The error every single-method backend reports when the method is not there. */
  function NotFound(service: string, methodName: string): string {
    "Unable to find " + service + "." + methodName
  }
}
